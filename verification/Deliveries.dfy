/** A reader that follows pages, whatever store they come from. */
module Deliveries {
  import opened ControlTypes
  import opened Arithmetic
  import opened Replay

  /** A page, the cursor it was asked for, and the store when it began and when it was done. */
  datatype Delivery = Delivery(first: Snapshot, after: nat, page: ReplayPage, last: Snapshot)

  /** The page moves the cursor on, skips nothing stored before it, and holds only stored events. */
  ghost predicate Sound(d: Delivery) {
    && Consistent(d.first) && Grows(d.first, d.last)
    && d.after <= d.page.highWater <= d.last.highWater
    && Min(d.after + 1, d.first.highWater) <= d.page.highWater
    && (forall c :: c in d.first.events && d.after < c <= d.page.highWater ==> d.first.events[c] in d.page.events)
    && (forall e :: e in d.page.events ==>
          d.after < e.cursor && e.cursor in d.last.events && d.last.events[e.cursor] == e)
  }

  /** The cursor of the reader after `k` pages. */
  function Cursor(ds: seq<Delivery>, start: nat, k: nat): nat
    requires k <= |ds|
  {
    if k == 0 then start else ds[k - 1].page.highWater
  }

  /** Each page is asked for where the one before it stopped, and the store only grows between them. */
  ghost predicate Chained(ds: seq<Delivery>, start: nat) {
    && (forall k {:trigger Sound(ds[k])} :: 0 <= k < |ds| ==> Sound(ds[k]))
    && (forall k {:trigger Cursor(ds, start, k)} :: 0 <= k < |ds| ==> ds[k].after == Cursor(ds, start, k))
    && (forall i, j {:trigger Grows(ds[i].last, ds[j].first)} ::
          0 <= i < j < |ds| ==> Grows(ds[i].last, ds[j].first))
  }

  ghost predicate Delivers(ds: seq<Delivery>, k: nat, e: Event) {
    k < |ds| && e in ds[k].page.events
  }

  lemma {:induction false} CursorNeverFalls(ds: seq<Delivery>, start: nat, i: nat, k: nat)
    requires Chained(ds, start) && i <= k <= |ds|
    ensures Cursor(ds, start, i) <= Cursor(ds, start, k)
    decreases k
  {
    if i < k {
      CursorNeverFalls(ds, start, i, k - 1);
      assert Sound(ds[k - 1]);
    }
  }

  lemma {:induction false} FirstGrows(ds: seq<Delivery>, start: nat, i: nat, j: nat)
    requires Chained(ds, start) && i <= j < |ds|
    ensures Grows(ds[i].first, ds[j].first)
  {
    assert Sound(ds[i]);
    if i < j {
      assert Grows(ds[i].last, ds[j].first);
    }
  }

  /** The cursor passes one position per page until it has passed the old high water. */
  lemma {:induction false} CursorMovesOn(ds: seq<Delivery>, start: nat, k: nat)
    requires Chained(ds, start) && k <= |ds| && ds != [] && start <= ds[0].first.highWater
    ensures Min(start + k, ds[0].first.highWater) <= Cursor(ds, start, k)
  {
    if k > 0 {
      CursorMovesOn(ds, start, k - 1);
      FirstGrows(ds, start, 0, k - 1);
      assert Sound(ds[k - 1]);
    }
  }

  /** Whatever is stored when page `m` begins arrives before the cursor passes it. */
  lemma {:induction false} NothingIsSkipped(ds: seq<Delivery>, start: nat, m: nat, k: nat, c: nat) returns (j: nat)
    requires Chained(ds, start) && m < k <= |ds| && c in ds[m].first.events
    requires Cursor(ds, start, m) < c <= Cursor(ds, start, k)
    ensures m <= j < k && Delivers(ds, j, ds[m].first.events[c])
    decreases k
  {
    if c <= Cursor(ds, start, k - 1) {
      j := NothingIsSkipped(ds, start, m, k - 1, c);
    } else {
      FirstGrows(ds, start, m, k - 1);
      assert Sound(ds[k - 1]);
      j := k - 1;
    }
  }

  /** Every event stored when the reader began arrives, after at most as many pages as cursors were left. */
  lemma {:induction false} EveryOldEventArrives(ds: seq<Delivery>, start: nat, c: nat) returns (j: nat)
    requires Chained(ds, start) && ds != [] && start <= ds[0].first.highWater
    requires ds[0].first.highWater - start <= |ds| && c in ds[0].first.events && start < c
    ensures Delivers(ds, j, ds[0].first.events[c])
  {
    CursorMovesOn(ds, start, |ds|);
    assert Sound(ds[0]);
    j := NothingIsSkipped(ds, start, 0, |ds|, c);
  }

  /** Page `i` holds the event and returns a cursor before it. */
  ghost predicate Overruns(ds: seq<Delivery>, i: nat, e: Event) {
    Delivers(ds, i, e) && e.cursor > ds[i].page.highWater
  }

  ghost predicate DeliveredTwice(ds: seq<Delivery>, k: nat, e: Event) {
    exists i: nat, j: nat :: i < j < k && Delivers(ds, i, e) && Delivers(ds, j, e)
  }

  lemma {:induction false} RepeatMeansOverrun(ds: seq<Delivery>, start: nat, i: nat, j: nat, e: Event)
    requires Chained(ds, start) && i < j && Delivers(ds, i, e) && Delivers(ds, j, e)
    ensures Overruns(ds, i, e)
  {
    CursorNeverFalls(ds, start, i + 1, j);
    assert Sound(ds[j]);
  }

  lemma {:induction false} OverrunMeansRepeat(ds: seq<Delivery>, start: nat, k: nat, i: nat, e: Event) returns (j: nat)
    requires Chained(ds, start) && i < k <= |ds| && Overruns(ds, i, e) && e.cursor <= Cursor(ds, start, k)
    ensures i < j < k && Delivers(ds, j, e)
  {
    assert Sound(ds[i]);
    assert i + 1 < k;
    assert Grows(ds[i].last, ds[i + 1].first);
    j := NothingIsSkipped(ds, start, i + 1, k, e.cursor);
  }

  /** Once the reader has passed an event, it got it twice exactly when the event overran a page. */
  lemma {:induction false} DeliveredTwiceIff(ds: seq<Delivery>, start: nat, k: nat, e: Event)
    requires Chained(ds, start) && k <= |ds| && e.cursor <= Cursor(ds, start, k)
    ensures DeliveredTwice(ds, k, e) <==> exists i: nat :: i < k && Overruns(ds, i, e)
  {
    if DeliveredTwice(ds, k, e) {
      var i: nat, j: nat :| i < j < k && Delivers(ds, i, e) && Delivers(ds, j, e);
      RepeatMeansOverrun(ds, start, i, j, e);
    }
    if i: nat :| i < k && Overruns(ds, i, e) {
      var j := OverrunMeansRepeat(ds, start, k, i, e);
      assert Delivers(ds, i, e) && Delivers(ds, j, e);
    }
  }

  // ---------------------------------------------------------------- pages that do not overrun

  /** The page ascends and stays within the cursor that it returns. */
  ghost predicate Ordered(d: Delivery) {
    Ascending(d.page.events) && forall e :: e in d.page.events ==> e.cursor <= d.page.highWater
  }

  /** Everything delivered by the first `k` pages, in the order of delivery. */
  function Delivered(ds: seq<Delivery>, k: nat): seq<Event>
    requires k <= |ds|
  {
    if k == 0 then [] else Delivered(ds, k - 1) + ds[k - 1].page.events
  }

  lemma {:induction false} DeliveryBrings(ds: seq<Delivery>, start: nat, k: nat)
    requires Chained(ds, start) && k < |ds| && Ordered(ds[k])
    ensures Brings(ds[0].first, Cursor(ds, start, k), Cursor(ds, start, k + 1), ds[k].page.events)
  {
    assert Sound(ds[k]);
    FirstGrows(ds, start, 0, k);
    var events := ds[k].page.events;
    forall i | 0 <= i < |events| ensures ds[k].after < events[i].cursor <= ds[k].page.highWater {
      assert events[i] in events;
    }
  }

  /** The next page goes on where what was brought so far ends. */
  lemma {:induction false} OnePageMore(ds: seq<Delivery>, start: nat, k: nat, delivered: seq<Event>)
    requires Chained(ds, start) && k < |ds| && Ordered(ds[k])
    requires Brings(ds[0].first, start, Cursor(ds, start, k), delivered)
    ensures Brings(ds[0].first, start, Cursor(ds, start, k + 1), delivered + ds[k].page.events)
  {
    DeliveryBrings(ds, start, k);
    CursorNeverFalls(ds, start, 0, k);
    CursorNeverFalls(ds, start, k, k + 1);
    BringsMore(ds[0].first, start, Cursor(ds, start, k), Cursor(ds, start, k + 1), delivered, ds[k].page.events);
  }

  /**
   A reader whose pages do not overrun gets events in strictly ascending order, never one twice,
   and none of those stored when it began is skipped, whatever is reserved and appended meanwhile.
   */
  lemma {:induction false} FollowingPagesMissesNothing(ds: seq<Delivery>, start: nat, k: nat)
    requires Chained(ds, start) && ds != [] && k <= |ds| && forall i :: 0 <= i < |ds| ==> Ordered(ds[i])
    ensures Brings(ds[0].first, start, Cursor(ds, start, k), Delivered(ds, k))
  {
    if k > 0 {
      FollowingPagesMissesNothing(ds, start, k - 1);
      OnePageMore(ds, start, k - 1, Delivered(ds, k - 1));
    }
  }

  // ---------------------------------------------------------------- the in-memory reader

  /** The stores a reader finds from page to page. */
  ghost predicate Living(stores: seq<Snapshot>) {
    && (forall i {:trigger Consistent(stores[i])} :: 0 <= i < |stores| ==> Consistent(stores[i]))
    && (forall i, j {:trigger Grows(stores[i], stores[j])} ::
          0 <= i < j < |stores| ==> Grows(stores[i], stores[j]))
  }

  /** A page of the in-memory store, which is read at one moment. */
  ghost predicate IsMemoryPage(stores: seq<Snapshot>, ds: seq<Delivery>, start: nat, limit: nat, k: nat)
    requires 0 < limit && k < |ds| == |stores|
  {
    var after := Cursor(ds, start, k);
    ds[k] == Delivery(stores[k], after, MemoryPage(stores[k], after, limit), stores[k])
  }

  ghost predicate FollowsMemory(stores: seq<Snapshot>, ds: seq<Delivery>, start: nat, limit: nat)
    requires 0 < limit
  {
    && |ds| == |stores|
    && forall k {:trigger IsMemoryPage(stores, ds, start, limit, k)} ::
         0 <= k < |ds| ==> IsMemoryPage(stores, ds, start, limit, k)
  }

  lemma {:induction false} MemoryPageIsSound(s: Snapshot, after: nat, limit: nat)
    requires Consistent(s) && 0 < limit && after <= s.highWater
    ensures var d := Delivery(s, after, MemoryPage(s, after, limit), s); Sound(d) && Ordered(d)
  {
    var page := MemoryPage(s, after, limit);
    PageCoversItsRange(s, after, limit);
    PageBrings(s, s, after, limit);
    EventsInRange(s.events, after, page.highWater);
  }

  lemma {:induction false} MemoryDeliveryIsSound(
      stores: seq<Snapshot>, ds: seq<Delivery>, start: nat, limit: nat, k: nat)
    requires Living(stores) && 0 < limit && FollowsMemory(stores, ds, start, limit) && k < |ds|
    requires start <= stores[0].highWater
    ensures Sound(ds[k]) && Ordered(ds[k]) && ds[k].after <= stores[k].highWater
  {
    assert IsMemoryPage(stores, ds, start, limit, k);
    assert Consistent(stores[k]);
    if k > 0 {
      MemoryDeliveryIsSound(stores, ds, start, limit, k - 1);
      assert IsMemoryPage(stores, ds, start, limit, k - 1);
      assert Grows(stores[k - 1], stores[k]);
    }
    MemoryPageIsSound(stores[k], ds[k].after, limit);
  }

  /** A reader of the in-memory store is a chain of sound deliveries, none of which overruns. */
  lemma {:induction false} MemoryReaderIsChained(
      stores: seq<Snapshot>, ds: seq<Delivery>, start: nat, limit: nat)
    requires Living(stores) && 0 < limit && FollowsMemory(stores, ds, start, limit)
    requires stores != [] ==> start <= stores[0].highWater
    ensures Chained(ds, start) && forall k :: 0 <= k < |ds| ==> Ordered(ds[k])
  {
    forall k | 0 <= k < |ds| ensures Sound(ds[k]) && Ordered(ds[k]) && ds[k].after == Cursor(ds, start, k) {
      MemoryDeliveryIsSound(stores, ds, start, limit, k);
      assert IsMemoryPage(stores, ds, start, limit, k);
    }
    forall i, j | 0 <= i < j < |ds| ensures Grows(ds[i].last, ds[j].first) {
      assert IsMemoryPage(stores, ds, start, limit, i) && IsMemoryPage(stores, ds, start, limit, j);
      assert Grows(stores[i], stores[j]);
    }
  }
}
