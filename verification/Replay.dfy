/** Paged replay of the event log: the ordered range scan, and a reader that follows pages. */
module Replay {
  import opened ControlTypes
  import opened Arithmetic

  /** What a replay reads: the stored events and the high water of the allocator. */
  datatype Snapshot = Snapshot(events: map<nat, Event>, highWater: nat)

  /** Every stored event is filed under its own cursor, within 1..=high water. */
  ghost predicate Consistent(s: Snapshot) {
    forall c :: c in s.events ==> 1 <= c <= s.highWater && s.events[c].cursor == c
  }

  /** The events with a cursor in (lo, hi], by ascending cursor. */
  function EventsIn(events: map<nat, Event>, lo: nat, hi: nat): seq<Event>
    decreases hi
  {
    if hi <= lo then []
    else EventsIn(events, lo, hi - 1) + if hi in events then [events[hi]] else []
  }

  function Remaining(s: Snapshot, after: nat): seq<Event> {
    EventsIn(s.events, after, s.highWater)
  }

  function Truncate<T>(s: seq<T>, n: nat): seq<T> {
    if |s| <= n then s else s[..n]
  }

  predicate HasMore(s: Snapshot, after: nat, limit: nat) {
    |Remaining(s, after)| > limit
  }

  /** The page the in-memory store answers: an ordered scan one event longer than the page. */
  function MemoryPage(s: Snapshot, after: nat, limit: nat): ReplayPage
    requires 0 < limit
  {
    var scanned := Truncate(Remaining(s, after), limit + 1);
    var events := Truncate(scanned, limit);
    var highWater := if |scanned| > limit then events[|events| - 1].cursor else s.highWater;
    ReplayPage(highWater, events)
  }

  /** The page that a scan gives: as much as fits, and where to go on. */
  function PageFrom(scan: seq<Event>, highWater: nat, limit: nat): ReplayPage
    requires 0 < limit
  {
    ReplayPage(if |scan| > limit then scan[limit - 1].cursor else highWater, Truncate(scan, limit))
  }

  lemma {:induction false} PageOfScan(s: Snapshot, after: nat, limit: nat)
    requires 0 < limit
    ensures MemoryPage(s, after, limit) == PageFrom(Remaining(s, after), s.highWater, limit)
  {
    var all := Remaining(s, after);
    if |all| > limit + 1 {
      assert all[..limit + 1][..limit] == all[..limit];
    }
  }

  // ---------------------------------------------------------------- the range scan

  ghost predicate Ascending(s: seq<Event>) {
    forall i, j :: 0 <= i < j < |s| ==> s[i].cursor < s[j].cursor
  }

  /** What an ordered range scan must return: every event past `after` once, in cursor order. */
  ghost predicate IsScan(s: Snapshot, after: nat, scan: seq<Event>) {
    && Ascending(scan)
    && (forall i :: 0 <= i < |scan| ==>
          after < scan[i].cursor && scan[i].cursor in s.events && s.events[scan[i].cursor] == scan[i])
    && (forall c :: c in s.events && after < c ==> s.events[c] in scan)
  }

  ghost predicate Keyed(events: map<nat, Event>) {
    forall c :: c in events ==> events[c].cursor == c
  }

  ghost predicate InRange(events: map<nat, Event>, lo: nat, hi: nat, e: Event) {
    lo < e.cursor <= hi && e.cursor in events && events[e.cursor] == e
  }

  lemma {:induction false} InOneMore(before: seq<Event>, last: Event, e: Event)
    ensures e in before + [last] <==> e in before || e == last
  {
  }

  lemma {:induction false} EventsInHold(events: map<nat, Event>, lo: nat, hi: nat, e: Event)
    requires Keyed(events)
    ensures e in EventsIn(events, lo, hi) <==> InRange(events, lo, hi, e)
    decreases hi
  {
    if lo < hi {
      EventsInHold(events, lo, hi - 1, e);
      if hi in events {
        InOneMore(EventsIn(events, lo, hi - 1), events[hi], e);
      }
    }
  }

  lemma {:induction false} EventsInAscend(events: map<nat, Event>, lo: nat, hi: nat)
    requires Keyed(events)
    ensures Ascending(EventsIn(events, lo, hi))
    decreases hi
  {
    if lo < hi {
      EventsInAscend(events, lo, hi - 1);
      var before := EventsIn(events, lo, hi - 1);
      forall i | 0 <= i < |before| ensures before[i].cursor < hi {
        EventsInHold(events, lo, hi - 1, before[i]);
      }
    }
  }

  lemma {:induction false} EventsInRange(events: map<nat, Event>, lo: nat, hi: nat)
    requires Keyed(events)
    ensures Ascending(EventsIn(events, lo, hi))
    ensures forall e :: e in EventsIn(events, lo, hi) <==>
              lo < e.cursor <= hi && e.cursor in events && events[e.cursor] == e
  {
    EventsInAscend(events, lo, hi);
    forall e ensures e in EventsIn(events, lo, hi) <==> InRange(events, lo, hi, e) {
      EventsInHold(events, lo, hi, e);
    }
  }

  /** The scan of the model is an ordered range scan. */
  lemma RemainingIsTheScan(s: Snapshot, after: nat)
    requires Consistent(s)
    ensures IsScan(s, after, Remaining(s, after))
  {
    EventsInRange(s.events, after, s.highWater);
    forall i | 0 <= i < |Remaining(s, after)|
      ensures after < Remaining(s, after)[i].cursor && Remaining(s, after)[i].cursor in s.events
           && s.events[Remaining(s, after)[i].cursor] == Remaining(s, after)[i]
    {
      assert Remaining(s, after)[i] in Remaining(s, after);
    }
  }

  lemma {:induction false} EventsInSplit(events: map<nat, Event>, lo: nat, mid: nat, hi: nat)
    requires lo <= mid <= hi
    ensures EventsIn(events, lo, hi) == EventsIn(events, lo, mid) + EventsIn(events, mid, hi)
    decreases hi
  {
    if mid < hi {
      EventsInSplit(events, lo, mid, hi - 1);
    }
  }

  lemma {:induction false} NothingAboveHighWater(s: Snapshot, lo: nat, hi: nat)
    requires Consistent(s) && s.highWater <= lo
    ensures EventsIn(s.events, lo, hi) == []
    decreases hi
  {
    if lo < hi {
      NothingAboveHighWater(s, lo, hi - 1);
    }
  }

  /** The first `n` events of a range are the events up to the cursor of the `n`-th. */
  lemma {:induction false} PrefixIsRange(events: map<nat, Event>, lo: nat, hi: nat, n: nat)
    requires Keyed(events) && 0 < n <= |EventsIn(events, lo, hi)|
    ensures lo < EventsIn(events, lo, hi)[n - 1].cursor <= hi
    ensures EventsIn(events, lo, EventsIn(events, lo, hi)[n - 1].cursor) == EventsIn(events, lo, hi)[..n]
    decreases hi
  {
    var all := EventsIn(events, lo, hi);
    if n <= |EventsIn(events, lo, hi - 1)| {
      PrefixIsRange(events, lo, hi - 1, n);
    } else {
      assert all[..n] == all;
    }
  }

  // ---------------------------------------------------------------- what a page is

  /**
   A page without naming how it is computed: stored later events in ascending order, at most
   `limit` of them, leaving out only what comes after the last event of a full page, and a
   cursor that is that event's when something is left out and the high water otherwise.
   */
  ghost predicate IsPage(s: Snapshot, after: nat, limit: nat, page: ReplayPage) {
    && Ascending(page.events) && |page.events| <= limit
    && (forall e :: e in page.events ==> after < e.cursor && e.cursor in s.events && s.events[e.cursor] == e)
    && (forall c {:trigger LeftOut(s, after, page, c)} ::
          LeftOut(s, after, page, c) ==>
            |page.events| == limit && page.events != [] && page.events[limit - 1].cursor < c)
    && page.highWater == (if exists c :: LeftOut(s, after, page, c) then LastCursor(page) else s.highWater)
  }

  ghost predicate LeftOut(s: Snapshot, after: nat, page: ReplayPage, c: nat) {
    c in s.events && after < c && s.events[c] !in page.events
  }

  function LastCursor(page: ReplayPage): nat {
    if page.events == [] then 0 else page.events[|page.events| - 1].cursor
  }

  lemma {:induction false} MemoryPageIsPage(s: Snapshot, after: nat, limit: nat)
    requires Consistent(s) && 0 < limit
    ensures IsPage(s, after, limit, MemoryPage(s, after, limit))
  {
    var all, page := Remaining(s, after), MemoryPage(s, after, limit);
    PageOfScan(s, after, limit);
    EventsInAscend(s.events, after, s.highWater);
    forall e ensures e in all <==> InRange(s.events, after, s.highWater, e) {
      EventsInHold(s.events, after, s.highWater, e);
    }
    if |all| > limit {
      FullPageIsPage(s, after, limit, page, all);
    } else {
      ShortPageIsPage(s, after, limit, page, all);
    }
  }

  lemma {:induction false} ShortPageIsPage(s: Snapshot, after: nat, limit: nat, page: ReplayPage, all: seq<Event>)
    requires Consistent(s) && |all| <= limit && Ascending(all) && page == ReplayPage(s.highWater, all)
    requires forall e :: e in all <==> InRange(s.events, after, s.highWater, e)
    ensures IsPage(s, after, limit, page)
  {
    forall c: nat ensures !LeftOut(s, after, page, c) {
      if c in s.events && after < c {
        assert InRange(s.events, after, s.highWater, s.events[c]);
      }
    }
  }

  lemma {:induction false} FullPageIsPage(s: Snapshot, after: nat, limit: nat, page: ReplayPage, all: seq<Event>)
    requires Consistent(s) && 0 < limit < |all| && Ascending(all)
    requires page == ReplayPage(all[limit - 1].cursor, all[..limit])
    requires forall e :: e in all <==> InRange(s.events, after, s.highWater, e)
    ensures IsPage(s, after, limit, page)
  {
    RestIsLeftOut(s, after, limit, page, all);
    forall e | e in page.events ensures InRange(s.events, after, s.highWater, e) {
      assert e in all;
    }
  }

  lemma {:induction false} RestIsLeftOut(s: Snapshot, after: nat, limit: nat, page: ReplayPage, all: seq<Event>)
    requires Consistent(s) && 0 < limit < |all| && Ascending(all) && page.events == all[..limit]
    requires forall e :: e in all <==> InRange(s.events, after, s.highWater, e)
    ensures exists c :: LeftOut(s, after, page, c)
    ensures forall c :: LeftOut(s, after, page, c) ==> all[limit - 1].cursor < c
  {
    var next := all[limit];
    assert next in all;
    forall i | 0 <= i < limit ensures all[i] != next {
      assert all[i].cursor < next.cursor;
    }
    assert LeftOut(s, after, page, next.cursor);
    forall c | LeftOut(s, after, page, c) ensures all[limit - 1].cursor < c {
      assert InRange(s.events, after, s.highWater, s.events[c]);
      var i :| 0 <= i < |all| && all[i] == s.events[c];
      assert forall j :: 0 <= j < limit ==> page.events[j] == all[j];
      assert i >= limit;
      assert all[limit - 1].cursor < all[i].cursor;
    }
  }

  // ---------------------------------------------------------------- following pages

  /** What reserves and appends may do between two pages. */
  ghost predicate Grows(s: Snapshot, t: Snapshot) {
    && s.highWater <= t.highWater
    && forall c :: c in s.events ==> c in t.events && t.events[c] == s.events[c]
  }

  /** A page holds exactly the events between the cursor it was asked for and the one it returns. */
  lemma PageCoversItsRange(s: Snapshot, after: nat, limit: nat)
    requires Consistent(s) && 0 < limit && after <= s.highWater
    ensures var page := MemoryPage(s, after, limit);
            && page.events == EventsIn(s.events, after, page.highWater)
            && Min(after + 1, s.highWater) <= page.highWater <= s.highWater
            && (!HasMore(s, after, limit) ==> page.highWater == s.highWater)
            && (HasMore(s, after, limit) ==> |page.events| == limit && after < page.highWater < s.highWater)
  {
    PageOfScan(s, after, limit);
    if HasMore(s, after, limit) {
      FullPageStops(s, after, limit);
    }
  }

  lemma FullPageStops(s: Snapshot, after: nat, limit: nat)
    requires Consistent(s) && 0 < limit && HasMore(s, after, limit)
    ensures var stop := Remaining(s, after)[limit - 1].cursor;
            && after < stop < s.highWater
            && EventsIn(s.events, after, stop) == Remaining(s, after)[..limit]
  {
    var all := Remaining(s, after);
    PrefixIsRange(s.events, after, s.highWater, limit);
    EventsInRange(s.events, after, s.highWater);
    assert all[limit - 1].cursor < all[limit].cursor && all[limit] in all;
  }

  lemma {:induction false} GrowthAddsUp(a: Snapshot, b: Snapshot, c: Snapshot)
    requires Grows(a, b) && Grows(b, c)
    ensures Grows(a, c)
  {
  }

  /**
   What a reader should have got between two cursors: events in ascending order, none twice,
   and every one of those stored when it began.
   */
  ghost predicate Brings(s: Snapshot, start: nat, upTo: nat, delivered: seq<Event>) {
    && Ascending(delivered)
    && (forall i :: 0 <= i < |delivered| ==> start < delivered[i].cursor <= upTo)
    && (forall c :: c in s.events && start < c <= upTo ==> s.events[c] in delivered)
  }

  lemma {:induction false} BringsMore(
      first: Snapshot, start: nat, mid: nat, upTo: nat, delivered: seq<Event>, more: seq<Event>)
    requires Brings(first, start, mid, delivered) && Brings(first, mid, upTo, more) && start <= mid <= upTo
    ensures Brings(first, start, upTo, delivered + more)
  {
  }

  /** A page brings what lies between the cursor it was asked for and the one it returns. */
  lemma {:induction false} PageBrings(first: Snapshot, now: Snapshot, after: nat, limit: nat)
    requires Consistent(now) && Grows(first, now) && 0 < limit && after <= now.highWater
    ensures var page := MemoryPage(now, after, limit); Brings(first, after, page.highWater, page.events)
  {
    var page := MemoryPage(now, after, limit);
    PageCoversItsRange(now, after, limit);
    EventsInAscend(now.events, after, page.highWater);
    forall i | 0 <= i < |page.events| ensures after < page.events[i].cursor <= page.highWater {
      EventsInHold(now.events, after, page.highWater, page.events[i]);
    }
    forall c | c in first.events && after < c <= page.highWater ensures first.events[c] in page.events {
      EventsInHold(now.events, after, page.highWater, first.events[c]);
    }
  }

  /** How many pages a reader needs on a quiet store until a page reports nothing more. */
  ghost function PagesNeeded(s: Snapshot, after: nat, limit: nat): nat
    requires Consistent(s) && 0 < limit && after <= s.highWater
    decreases s.highWater - after
  {
    PageCoversItsRange(s, after, limit);
    if HasMore(s, after, limit) then 1 + PagesNeeded(s, MemoryPage(s, after, limit).highWater, limit) else 1
  }

  /** `n > 0` remaining events take exactly ceil(n / limit) pages on a quiet store. */
  lemma {:induction false} QuietReplayTakesCeilingPages(s: Snapshot, after: nat, limit: nat)
    requires Consistent(s) && 0 < limit && after <= s.highWater
    ensures var n := |Remaining(s, after)|;
            PagesNeeded(s, after, limit) == if n == 0 then 1 else CeilDiv(n, limit)
    decreases s.highWater - after
  {
    var n := |Remaining(s, after)|;
    var page := MemoryPage(s, after, limit);
    PageCoversItsRange(s, after, limit);
    if HasMore(s, after, limit) {
      EventsInSplit(s.events, after, page.highWater, s.highWater);
      QuietReplayTakesCeilingPages(s, page.highWater, limit);
      CeilDivStep(n, limit);
    } else if n > 0 {
      CeilDivOfFew(n, limit);
    }
  }
}
