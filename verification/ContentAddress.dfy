/**
 The content-addressed ingest planner: what to do about one location, what a whole walk does,
 and which contents a finished pass leaves without a location.
 */
module ContentAddress {
  type ContentId = string
  type LocationId = string

  datatype Action =
    | IngestContent(content: ContentId, location: LocationId)
    | LinkExisting(content: ContentId, location: LocationId)
    | Unchanged(content: ContentId, location: LocationId)
    | Version(location: LocationId, from: ContentId, to: ContentId, ingestNeeded: bool)
    | Unlink(content: ContentId, location: LocationId)
    | Missing(location: LocationId, reason: string)

  datatype Known = Known(locations: map<LocationId, ContentId>, contents: set<ContentId>)

  datatype Observed = Content(content: ContentId) | NothingBehind(reason: string)

  datatype Visit = Visit(location: LocationId, observed: Observed)

  function Decide(known: Known, location: LocationId, observed: Observed): Action {
    match observed
    case NothingBehind(reason) => Missing(location, reason)
    case Content(content) =>
      if location in known.locations then
        if known.locations[location] == content then Unchanged(content, location)
        else Version(location, known.locations[location], content, content !in known.contents)
      else if content in known.contents then LinkExisting(content, location)
      else IngestContent(content, location)
  }

  /** How an action moves the location map. */
  function Relocate(locations: map<LocationId, ContentId>, action: Action): map<LocationId, ContentId> {
    match action
    case Unlink(_, location) => locations - {location}
    case IngestContent(content, location) => locations[location := content]
    case LinkExisting(content, location) => locations[location := content]
    case Version(location, _, to, _) => locations[location := to]
    case Unchanged(_, _) => locations
    case Missing(_, _) => locations
  }

  /** The content an action stores, if it stores any. */
  function Stores(action: Action): set<ContentId> {
    match action
    case IngestContent(content, _) => {content}
    case Version(_, _, to, ingestNeeded) => if ingestNeeded then {to} else {}
    case _ => {}
  }

  function Apply(known: Known, action: Action): Known {
    Known(Relocate(known.locations, action), known.contents + Stores(action))
  }

  function ApplyAll(known: Known, actions: seq<Action>): Known
    decreases |actions|
  {
    if actions == [] then known else ApplyAll(Apply(known, actions[0]), actions[1..])
  }

  /** A walk decides each location against the store as the earlier visits left it. */
  function Walk(known: Known, visits: seq<Visit>): seq<Action>
    decreases |visits|
  {
    if visits == [] then []
    else
      var action := Decide(known, visits[0].location, visits[0].observed);
      [action] + Walk(Apply(known, action), visits[1..])
  }

  // ---------------------------------------------------------------- what a walk does

  /** Every location points at stored content. */
  ghost predicate Grounded(known: Known) {
    forall l :: l in known.locations ==> known.locations[l] in known.contents
  }

  ghost predicate Seen(visits: seq<Visit>, content: ContentId) {
    exists v :: v in visits && v.observed == Content(content)
  }

  ghost predicate Distinct(visits: seq<Visit>) {
    forall i, j :: 0 <= i < j < |visits| ==> visits[i].location != visits[j].location
  }

  function IngestCount(actions: seq<Action>, content: ContentId): nat {
    if actions == [] then 0 else (if content in Stores(actions[0]) then 1 else 0) + IngestCount(actions[1..], content)
  }

  lemma DecideStores(known: Known, visit: Visit)
    requires Grounded(known)
    ensures var action := Decide(known, visit.location, visit.observed);
            && Stores(action) == (if visit.observed.Content? && visit.observed.content !in known.contents
                                  then {visit.observed.content} else {})
            && Grounded(Apply(known, action))
  {
  }

  /**
   Each content met on the walk and not stored before is ingested exactly once, however many
   locations hold it; stored content is never ingested again.
   */
  lemma {:induction false} NewContentIsIngestedOnce(known: Known, visits: seq<Visit>, content: ContentId)
    requires Grounded(known)
    ensures IngestCount(Walk(known, visits), content) ==
            if content !in known.contents && Seen(visits, content) then 1 else 0
    ensures Grounded(ApplyAll(known, Walk(known, visits)))
    decreases |visits|
  {
    if visits != [] {
      var action := Decide(known, visits[0].location, visits[0].observed);
      DecideStores(known, visits[0]);
      NewContentIsIngestedOnce(Apply(known, action), visits[1..], content);
      assert visits == [visits[0]] + visits[1..];
      assert Seen(visits, content) <==> visits[0].observed == Content(content) || Seen(visits[1..], content) by {
        if Seen(visits[1..], content) {
          var v :| v in visits[1..] && v.observed == Content(content);
          assert v in visits;
        }
      }
    }
  }

  /** The store after a walk, described by what was observed and not by the order of visits. */
  ghost predicate Reflects(known: Known, visits: seq<Visit>, after: Known) {
    && (forall c :: c in after.contents <==> c in known.contents || Seen(visits, c))
    && (forall l :: l in after.locations <==>
          l in known.locations || exists v :: v in visits && v.location == l && v.observed.Content?)
    && (forall v :: v in visits && v.observed.Content? ==>
          v.location in after.locations && after.locations[v.location] == v.observed.content)
    && (forall l :: l in known.locations && (forall v :: v in visits && v.location == l ==> !v.observed.Content?) ==>
          l in after.locations && after.locations[l] == known.locations[l])
  }

  lemma {:induction false} WalkReflectsVisits(known: Known, visits: seq<Visit>)
    requires Grounded(known) && Distinct(visits)
    ensures Reflects(known, visits, ApplyAll(known, Walk(known, visits)))
  {
    var after := ApplyAll(known, Walk(known, visits));
    LocationsReflect(known, visits);
    forall v | v in visits && v.observed.Content? ensures Filled(visits, v.location, v.observed.content) {
      assert v == Visit(v.location, Content(v.observed.content));
    }
    forall l, c | Filled(visits, l, c)
      ensures exists v :: v in visits && v.location == l && v.observed.Content?
    {
      assert Visit(l, Content(c)) in visits;
    }
  }

  lemma LaterLocationsDiffer(first: Visit, rest: seq<Visit>, v: Visit)
    requires Distinct([first] + rest) && v in rest
    ensures v.location != first.location
  {
    var all := [first] + rest;
    var i :| 0 <= i < |rest| && rest[i] == v;
    assert all[0] == first && all[i + 1] == v;
  }

  ghost predicate ReflectsContents(known: Known, visits: seq<Visit>, after: Known) {
    forall c :: c in after.contents <==> c in known.contents || Seen(visits, c)
  }

  /** A location is observed with content on the walk. */
  ghost predicate Filled(visits: seq<Visit>, location: LocationId, content: ContentId) {
    Visit(location, Content(content)) in visits
  }

  lemma ContentsOneMore(known: Known, first: Visit, rest: seq<Visit>, mid: Known, after: Known)
    requires Grounded(known) && ReflectsContents(mid, rest, after)
    requires mid == Apply(known, Decide(known, first.location, first.observed))
    ensures ReflectsContents(known, [first] + rest, after)
  {
    DecideStores(known, first);
    var all := [first] + rest;
    assert forall v :: v in all <==> v == first || v in rest;
    forall c ensures Seen(all, c) <==> first.observed == Content(c) || Seen(rest, c) {
      if Seen(rest, c) {
        var v :| v in rest && v.observed == Content(c);
        assert v in all;
      }
    }
  }

  /** Every location points at what was last seen there, or at what it pointed at before. */
  ghost predicate ReflectsLocations(known: Known, visits: seq<Visit>, after: Known) {
    && (forall l, c :: Filled(visits, l, c) ==> l in after.locations && after.locations[l] == c)
    && (forall l :: (forall c :: !Filled(visits, l, c)) ==>
          (l in after.locations <==> l in known.locations)
          && (l in after.locations ==> after.locations[l] == known.locations[l]))
  }

  lemma LocationsOneMore(known: Known, first: Visit, rest: seq<Visit>, mid: Known, after: Known)
    requires Distinct([first] + rest) && ReflectsLocations(mid, rest, after)
    requires mid == Apply(known, Decide(known, first.location, first.observed))
    ensures ReflectsLocations(known, [first] + rest, after)
  {
    var all := [first] + rest;
    assert forall v :: v in all <==> v == first || v in rest;
    forall l, c | Filled(rest, l, c) ensures l != first.location {
      LaterLocationsDiffer(first, rest, Visit(l, Content(c)));
    }
    forall l, c ensures Filled(all, l, c) <==> first == Visit(l, Content(c)) || Filled(rest, l, c) { }
  }

  lemma {:induction false} LocationsReflect(known: Known, visits: seq<Visit>)
    requires Grounded(known) && Distinct(visits)
    ensures var after := ApplyAll(known, Walk(known, visits));
            ReflectsContents(known, visits, after) && ReflectsLocations(known, visits, after)
    decreases |visits|
  {
    if visits != [] {
      var first, rest := visits[0], visits[1..];
      var action := Decide(known, first.location, first.observed);
      var mid, actions := Apply(known, action), Walk(Apply(known, action), rest);
      assert Walk(known, visits) == [action] + actions && ([action] + actions)[1..] == actions;
      DecideStores(known, first);
      LocationsReflect(mid, rest);
      assert visits == [first] + rest;
      ContentsOneMore(known, first, rest, mid, ApplyAll(mid, actions));
      LocationsOneMore(known, first, rest, mid, ApplyAll(mid, actions));
    }
  }

  lemma ReflectsIsUnique(known: Known, one: seq<Visit>, two: seq<Visit>, a: Known, b: Known)
    requires Reflects(known, one, a) && Reflects(known, two, b) && (forall v :: v in one <==> v in two)
    ensures a == b
  {
    forall l | l in a.locations ensures l in b.locations && a.locations[l] == b.locations[l] {
      if v :| v in one && v.location == l && v.observed.Content? {
        assert v in two;
      } else {
        assert l in known.locations;
      }
    }
    assert a.locations.Keys == b.locations.Keys;
    assert a.contents == b.contents;
  }

  /** The order of the visits does not matter to the store. */
  lemma VisitOrderDoesNotMatter(known: Known, one: seq<Visit>, two: seq<Visit>)
    requires Grounded(known) && Distinct(one) && Distinct(two) && multiset(one) == multiset(two)
    ensures ApplyAll(known, Walk(known, one)) == ApplyAll(known, Walk(known, two))
  {
    WalkReflectsVisits(known, one);
    WalkReflectsVisits(known, two);
    forall v ensures v in one <==> v in two {
      assert v in one <==> v in multiset(one);
      assert v in two <==> v in multiset(two);
    }
    ReflectsIsUnique(known, one, two, ApplyAll(known, Walk(known, one)), ApplyAll(known, Walk(known, two)));
  }

  ghost predicate Settled(known: Known, visits: seq<Visit>) {
    forall v :: v in visits && v.observed.Content? ==>
      v.location in known.locations && known.locations[v.location] == v.observed.content
  }

  lemma {:induction false} SettledWalkIsQuiet(known: Known, visits: seq<Visit>)
    requires Settled(known, visits)
    ensures forall i :: 0 <= i < |Walk(known, visits)| ==>
              Walk(known, visits)[i].Unchanged? || Walk(known, visits)[i].Missing?
    ensures ApplyAll(known, Walk(known, visits)) == known
    decreases |visits|
  {
    if visits != [] {
      assert visits[0] in visits;
      assert forall v :: v in visits[1..] ==> v in visits;
      SettledWalkIsQuiet(known, visits[1..]);
    }
  }

  /** Walking again over the same observations, in any order, finds nothing to do. */
  lemma RepeatWalkFindsNothing(known: Known, visits: seq<Visit>, again: seq<Visit>)
    requires Grounded(known) && Distinct(visits) && (forall v :: v in again ==> v in visits)
    ensures var after := ApplyAll(known, Walk(known, visits));
            && ApplyAll(after, Walk(after, again)) == after
            && forall i :: 0 <= i < |Walk(after, again)| ==>
                 Walk(after, again)[i].Unchanged? || Walk(after, again)[i].Missing?
  {
    WalkReflectsVisits(known, visits);
    SettledWalkIsQuiet(ApplyAll(known, Walk(known, visits)), again);
  }

  // ---------------------------------------------------------------- a whole pass

  ghost function SeenLocations(visits: seq<Visit>): set<LocationId> {
    set v | v in visits :: v.location
  }

  /** One unlink for every known location the pass did not see, and nothing else. */
  ghost predicate UnlinksUnseen(known: Known, seen: set<LocationId>, unlinks: seq<Action>) {
    && (forall i :: 0 <= i < |unlinks| ==>
          && unlinks[i].Unlink?
          && unlinks[i].location in known.locations && unlinks[i].location !in seen
          && unlinks[i].content == known.locations[unlinks[i].location])
    && (forall i, j :: 0 <= i < j < |unlinks| ==> unlinks[i].location != unlinks[j].location)
    && (forall l :: l in known.locations && l !in seen ==> Unlink(known.locations[l], l) in unlinks)
  }

  method Vanished(known: Known, seen: set<LocationId>) returns (unlinks: seq<Action>)
    ensures UnlinksUnseen(known, seen, unlinks)
  {
    unlinks := [];
    var left := known.locations.Keys - seen;
    while left != {}
      invariant left <= known.locations.Keys - seen
      invariant forall i :: 0 <= i < |unlinks| ==>
                  && unlinks[i].Unlink?
                  && unlinks[i].location in known.locations
                  && unlinks[i].location !in seen && unlinks[i].location !in left
                  && unlinks[i].content == known.locations[unlinks[i].location]
      invariant forall i, j :: 0 <= i < j < |unlinks| ==> unlinks[i].location != unlinks[j].location
      invariant forall l :: l in known.locations && l !in seen && l !in left ==>
                  Unlink(known.locations[l], l) in unlinks
      decreases |left|
    {
      var l :| l in left;
      ghost var before := unlinks;
      unlinks := unlinks + [Unlink(known.locations[l], l)];
      assert forall a :: a in before ==> a in unlinks;
      assert unlinks[|before|] == Unlink(known.locations[l], l);
      left := left - {l};
    }
  }

  function RelocateAll(locations: map<LocationId, ContentId>, actions: seq<Action>): map<LocationId, ContentId>
    decreases |actions|
  {
    if actions == [] then locations else RelocateAll(Relocate(locations, actions[0]), actions[1..])
  }

  lemma {:induction false} RelocateAllIsApplyAll(known: Known, actions: seq<Action>)
    ensures RelocateAll(known.locations, actions) == ApplyAll(known, actions).locations
    decreases |actions|
  {
    if actions != [] {
      RelocateAllIsApplyAll(Apply(known, actions[0]), actions[1..]);
    }
  }

  /** The contents of the old store that no location points at once the actions are applied. */
  method Orphaned(known: Known, applied: seq<Action>) returns (orphans: set<ContentId>)
    ensures orphans == set c | c in known.contents && c !in ApplyAll(known, applied).locations.Values
  {
    var live := known.locations;
    var i := 0;
    assert applied[0..] == applied;
    while i < |applied|
      invariant 0 <= i <= |applied|
      invariant RelocateAll(live, applied[i..]) == RelocateAll(known.locations, applied)
    {
      var action := applied[i];
      assert applied[i..][1..] == applied[i + 1..];
      match action {
        case Unlink(_, location) => live := live - {location};
        case IngestContent(content, location) => live := live[location := content];
        case LinkExisting(content, location) => live := live[location := content];
        case Version(location, _, to, _) => live := live[location := to];
        case Unchanged(_, _) =>
        case Missing(_, _) =>
      }
      i := i + 1;
    }
    RelocateAllIsApplyAll(known, applied);
    orphans := set c | c in known.contents && c !in live.Values;
  }

  lemma {:induction false} ApplyAllAppend(known: Known, a: seq<Action>, b: seq<Action>)
    ensures ApplyAll(known, a + b) == ApplyAll(ApplyAll(known, a), b)
    decreases |a|
  {
    if a == [] {
      assert a + b == b;
    } else {
      ApplyAllAppend(Apply(known, a[0]), a[1..], b);
      assert (a + b)[1..] == a[1..] + b;
    }
  }

  /** Unlinks remove exactly the locations they name and store nothing. */
  lemma {:induction false} UnlinkAll(known: Known, unlinks: seq<Action>)
    requires forall i :: 0 <= i < |unlinks| ==> unlinks[i].Unlink?
    ensures var after := ApplyAll(known, unlinks);
            && after.contents == known.contents
            && (forall l :: l in after.locations <==>
                  l in known.locations && forall a :: a in unlinks ==> a.location != l)
            && (forall l :: l in after.locations ==> after.locations[l] == known.locations[l])
    decreases |unlinks|
  {
    if unlinks != [] {
      UnlinkAll(Apply(known, unlinks[0]), unlinks[1..]);
      assert unlinks == [unlinks[0]] + unlinks[1..];
    }
  }

  /** The store after a pass: the walk, then one unlink per unseen location. */
  ghost function AfterPass(known: Known, visits: seq<Visit>, unlinks: seq<Action>): Known {
    ApplyAll(known, Walk(known, visits) + unlinks)
  }

  lemma PassLocations(known: Known, visits: seq<Visit>, unlinks: seq<Action>)
    requires Grounded(known) && Distinct(visits) && UnlinksUnseen(known, SeenLocations(visits), unlinks)
    ensures var after := AfterPass(known, visits, unlinks);
            && (forall c :: c in after.contents <==> c in known.contents || Seen(visits, c))
            && (forall v :: v in visits && v.observed.Content? ==>
                  v.location in after.locations && after.locations[v.location] == v.observed.content)
            && (forall l :: l in after.locations ==> l in SeenLocations(visits))
  {
    var walked := ApplyAll(known, Walk(known, visits));
    WalkReflectsVisits(known, visits);
    ApplyAllAppend(known, Walk(known, visits), unlinks);
    UnlinkAll(walked, unlinks);
    forall v | v in visits && v.observed.Content? ensures forall a :: a in unlinks ==> a.location != v.location {
      assert v.location in SeenLocations(visits);
    }
    forall l | l in known.locations && l !in SeenLocations(visits) ensures exists a :: a in unlinks && a.location == l {
      assert Unlink(known.locations[l], l) in unlinks;
    }
  }

  /**
   The orphans computed from the store before the pass are all the contents that the pass
   leaves without a location: whatever it stored first is still referenced at its end.
   */
  lemma OrphansAreComplete(known: Known, visits: seq<Visit>, unlinks: seq<Action>, content: ContentId)
    requires Grounded(known) && Distinct(visits) && UnlinksUnseen(known, SeenLocations(visits), unlinks)
    ensures var after := AfterPass(known, visits, unlinks);
            (content in known.contents && content !in after.locations.Values)
            <==> (content in after.contents && content !in after.locations.Values)
  {
    PassLocations(known, visits, unlinks);
    var after := AfterPass(known, visits, unlinks);
    if content in after.contents && content !in known.contents {
      var v :| v in visits && v.observed == Content(content);
      assert after.locations[v.location] == content;
    }
  }

  lemma UnlinkNamesAnUnseen(known: Known, seen: set<LocationId>, unlinks: seq<Action>)
    requires UnlinksUnseen(known, seen, unlinks) && unlinks != []
    ensures exists l :: l in known.locations && l !in seen
  {
    assert unlinks[0].location in known.locations;
  }

  /** A second full pass over the same tree changes nothing and unlinks nothing. */
  lemma SecondPassIsQuiet(known: Known, visits: seq<Visit>, unlinks: seq<Action>, again: seq<Visit>, more: seq<Action>)
    requires Grounded(known) && Distinct(visits) && UnlinksUnseen(known, SeenLocations(visits), unlinks)
    requires multiset(again) == multiset(visits)
    requires UnlinksUnseen(AfterPass(known, visits, unlinks), SeenLocations(again), more)
    ensures more == [] && AfterPass(AfterPass(known, visits, unlinks), again, more) == AfterPass(known, visits, unlinks)
  {
    PassLocations(known, visits, unlinks);
    var after := AfterPass(known, visits, unlinks);
    forall v ensures v in again <==> v in visits {
      assert v in again <==> v in multiset(again);
      assert v in visits <==> v in multiset(visits);
    }
    assert SeenLocations(again) == SeenLocations(visits);
    if more != [] {
      UnlinkNamesAnUnseen(after, SeenLocations(again), more);
      assert false;
    }
    SettledWalkIsQuiet(after, again);
    assert Walk(after, again) + more == Walk(after, again);
  }
}
