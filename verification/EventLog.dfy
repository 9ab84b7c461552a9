/**
 The append-only event log, interleaved with the cursor allocator.

 An append checks its cursor against the high water it reads, then sends an insert that
 applies only when the cursor is free. Check and insert are separate steps: anything may
 happen in between, and the insert is evaluated atomically at any later moment, even after
 the append has failed. After no answer the append reads the stored event id back.
 */
module EventLog {
  import opened Wrappers
  import opened ControlTypes
  import A = CursorAllocator
  import Replay
  import CqlReplay
  import CqlReader

  type AppendId = nat

  datatype Insert = NotSent | Pending | Applied | Rejected

  datatype Phase = Checking | Awaiting | Settling | Done(outcome: Result<Event, ControlError>)

  datatype Append = Append(draft: Event, insert: Insert, phase: Phase)

  datatype State = State(alloc: A.State, events: map<nat, Event>, appends: map<AppendId, Append>)

  datatype Action =
    | Allocate(action: A.Action)
    | Begin(id: AppendId, draft: Event)
    | CheckAndSend(id: AppendId)
    | ReadFails(id: AppendId)
    | Evaluate(id: AppendId)
    | Receive(id: AppendId, reply: A.Reply)
    | ReadBack(id: AppendId)

  const Initial := State(A.Initial, map[], map[])

  function HighWater(s: State): nat {
    A.HighWater(s.alloc.store.row)
  }

  /** Event ids are generated per draft, so an id stands for one draft; a draft may be retried. */
  ghost predicate IdStandsFor(s: State, draft: Event) {
    forall id :: id in s.appends && s.appends[id].draft.eventId == draft.eventId ==> s.appends[id].draft == draft
  }

  ghost predicate Enabled(s: State, a: Action) {
    match a
    case Allocate(action) => A.Enabled(s.alloc, action)
    case Begin(id, draft) => id !in s.appends && IdStandsFor(s, draft)
    case CheckAndSend(id) => id in s.appends && s.appends[id].phase == Checking
    case ReadFails(id) => id in s.appends && (s.appends[id].phase.Checking? || s.appends[id].phase.Settling?)
    case Evaluate(id) => id in s.appends && s.appends[id].insert == Pending
    case Receive(id, reply) =>
      && id in s.appends
      && s.appends[id].phase == Awaiting
      && (reply == A.SaysApplied ==> s.appends[id].insert == Applied)
      && (reply == A.SaysNotApplied ==> s.appends[id].insert == Rejected)
    case ReadBack(id) => id in s.appends && s.appends[id].phase == Settling
  }

  /** The check against the high water just read, and the insert it leads to. */
  function Check(append: Append, highWater: nat): Append {
    if append.draft.cursor > highWater then append.(phase := Done(Err(CursorNotReserved)))
    else
      match CursorBucket(append.draft.cursor)
      case Err(error) => append.(phase := Done(Err(error)))
      case Ok(_) => append.(insert := Pending, phase := Awaiting)
  }

  /** An answer that never came is settled by the event id stored under the cursor. */
  function Settled(append: Append, events: map<nat, Event>): Append {
    append.(phase := Done(
      if append.draft.cursor !in events then Err(InsertLeftNoRow)
      else if events[append.draft.cursor].eventId == append.draft.eventId then Ok(append.draft)
      else Err(CursorOccupied)))
  }

  function Answered(append: Append, reply: A.Reply): Append {
    append.(phase :=
      match reply
      case SaysApplied => Done(Ok(append.draft))
      case SaysNotApplied => Done(Err(CursorOccupied))
      case SaysNothing => Settling
      case Fails => Done(Err(StoreFailure)))
  }

  function Started(draft: Event): Append {
    match EventFault(draft)
    case Some(error) => Append(draft, NotSent, Done(Err(error)))
    case None => Append(draft, NotSent, Checking)
  }

  ghost function Next(s: State, a: Action): State
    requires Enabled(s, a)
  {
    match a
    case Allocate(action) => s.(alloc := A.Next(s.alloc, action))
    case Begin(id, draft) => s.(appends := s.appends[id := Started(draft)])
    case CheckAndSend(id) => s.(appends := s.appends[id := Check(s.appends[id], HighWater(s))])
    case ReadFails(id) => s.(appends := s.appends[id := s.appends[id].(phase := Done(Err(StoreFailure)))])
    case Evaluate(id) =>
      var append := s.appends[id];
      if append.draft.cursor in s.events then s.(appends := s.appends[id := append.(insert := Rejected)])
      else s.(appends := s.appends[id := append.(insert := Applied)],
              events := s.events[append.draft.cursor := append.draft])
    case Receive(id, reply) => s.(appends := s.appends[id := Answered(s.appends[id], reply)])
    case ReadBack(id) => s.(appends := s.appends[id := Settled(s.appends[id], s.events)])
  }

  ghost predicate Step(s: State, t: State) {
    exists a :: Enabled(s, a) && t == Next(s, a)
  }

  ghost predicate StepAt(run: seq<State>, i: nat) {
    i + 1 < |run| ==> Step(run[i], run[i + 1])
  }

  /** Every interleaving of reserves and appends. */
  ghost predicate IsRun(run: seq<State>) {
    && run != []
    && run[0] == Initial
    && forall i :: StepAt(run, i)
  }

  // ---------------------------------------------------------------- invariant

  /** Some append inserted the event. */
  ghost predicate IsInserted(appends: map<AppendId, Append>, event: Event) {
    exists id :: Inserted(appends, id, event)
  }

  ghost predicate Inserted(appends: map<AppendId, Append>, id: AppendId, event: Event) {
    id in appends && appends[id].insert == Applied && appends[id].draft == event
  }

  predicate AppendOk(append: Append, events: map<nat, Event>, highWater: nat) {
    var cursor := append.draft.cursor;
    && (append.insert != NotSent ==> 1 <= cursor <= highWater && CursorBucket(cursor).Ok?)
    && (append.insert == Applied ==> cursor in events && events[cursor] == append.draft)
    && (append.insert == Rejected || append.phase == Done(Err(CursorOccupied)) ==> cursor in events)
    && (append.phase == Done(Err(CursorOccupied)) ==>
          append.insert == Rejected || events[cursor].eventId != append.draft.eventId)
    && (append.phase.Awaiting? || append.phase.Settling? ==> append.insert != NotSent)
    && (append.phase.Checking? ==> append.insert == NotSent && cursor >= 1)
    && (append.phase.Done? && append.phase.outcome.Ok? ==>
          append.phase.outcome.value == append.draft && cursor in events && events[cursor] == append.draft)
  }

  ghost predicate IdsAgree(appends: map<AppendId, Append>) {
    forall a, b :: a in appends && b in appends && appends[a].draft.eventId == appends[b].draft.eventId ==>
      appends[a].draft == appends[b].draft
  }

  ghost predicate EventsOk(s: State) {
    forall c :: c in s.events ==>
      1 <= c <= HighWater(s) && CursorBucket(c).Ok? && s.events[c].cursor == c && IsInserted(s.appends, s.events[c])
  }

  ghost predicate AppendsOk(s: State) {
    forall id :: id in s.appends ==> AppendOk(s.appends[id], s.events, HighWater(s))
  }

  ghost predicate LogInv(s: State) {
    EventsOk(s) && AppendsOk(s) && IdsAgree(s.appends)
  }

  ghost predicate Inv(s: State) {
    A.Inv(s.alloc) && LogInv(s)
  }

  /** The high water only rises, so a check made earlier still holds when the insert lands. */
  lemma HighWaterRises(s: A.State, a: A.Action)
    requires A.Inv(s) && A.Enabled(s, a)
    ensures A.HighWater(s.store.row) <= A.HighWater(A.Next(s, a).store.row)
  {
    assert A.Step(s, A.Next(s, a));
    A.StepAdvances(s, A.Next(s, a));
  }

  lemma AllocateKeepsInv(s: State, a: A.Action)
    requires Inv(s) && A.Enabled(s.alloc, a)
    ensures Inv(s.(alloc := A.Next(s.alloc, a)))
  {
    A.NextKeepsInv(s.alloc, a);
    HighWaterRises(s.alloc, a);
  }

  /** A step that changes one append and keeps its draft. */
  /** The applied inserts of `appends` are still applied. */
  ghost predicate KeepsInserts(appends: map<AppendId, Append>, later: map<AppendId, Append>) {
    forall id :: id in appends && appends[id].insert == Applied ==>
      id in later && later[id].insert == Applied && later[id].draft == appends[id].draft
  }

  lemma InsertedStays(appends: map<AppendId, Append>, later: map<AppendId, Append>, event: Event)
    requires KeepsInserts(appends, later) && IsInserted(appends, event)
    ensures IsInserted(later, event)
  {
    var id :| Inserted(appends, id, event);
    assert Inserted(later, id, event);
  }

  lemma EventsStayOk(s: State, t: State)
    requires EventsOk(s) && t.events == s.events && t.alloc == s.alloc && KeepsInserts(s.appends, t.appends)
    ensures EventsOk(t)
  {
    forall c | c in t.events ensures IsInserted(t.appends, t.events[c]) {
      InsertedStays(s.appends, t.appends, s.events[c]);
    }
  }

  lemma IdsStillAgree(appends: map<AppendId, Append>, id: AppendId, append: Append)
    requires IdsAgree(appends)
    requires forall a :: a in appends && appends[a].draft.eventId == append.draft.eventId ==>
               appends[a].draft == append.draft
    ensures IdsAgree(appends[id := append])
  {
  }

  lemma AppendsStayOk(s: State, id: AppendId, append: Append)
    requires AppendsOk(s) && AppendOk(append, s.events, HighWater(s))
    ensures AppendsOk(s.(appends := s.appends[id := append]))
  {
    var appends := s.appends[id := append];
    forall other | other in appends ensures AppendOk(appends[other], s.events, HighWater(s)) {
      assert other != id ==> AppendOk(s.appends[other], s.events, HighWater(s));
    }
  }

  lemma AppendChangeKeepsLogInv(s: State, id: AppendId, append: Append)
    requires LogInv(s) && id in s.appends && append.draft == s.appends[id].draft
    requires s.appends[id].insert == Applied ==> append.insert == Applied
    requires AppendOk(append, s.events, HighWater(s))
    ensures LogInv(s.(appends := s.appends[id := append]))
  {
    var appends := s.appends[id := append];
    EventsStayOk(s, s.(appends := appends));
    IdsStillAgree(s.appends, id, append);
    AppendsStayOk(s, id, append);
  }

  lemma BeginKeepsLogInv(s: State, id: AppendId, draft: Event)
    requires LogInv(s) && Enabled(s, Begin(id, draft))
    ensures LogInv(Next(s, Begin(id, draft)))
  {
    var appends := s.appends[id := Started(draft)];
    EventsStayOk(s, s.(appends := appends));
    IdsStillAgree(s.appends, id, Started(draft));
    AppendsStayOk(s, id, Started(draft));
  }

  /** Storing an event at a free cursor leaves every append as right as it was. */
  lemma AppendOkGrows(append: Append, events: map<nat, Event>, highWater: nat, cursor: nat, event: Event)
    requires AppendOk(append, events, highWater) && cursor !in events
    ensures AppendOk(append, events[cursor := event], highWater)
  {
  }

  lemma InsertKeepsEvents(s: State, id: AppendId)
    requires LogInv(s) && Enabled(s, Evaluate(id)) && s.appends[id].draft.cursor !in s.events
    ensures EventsOk(Next(s, Evaluate(id)))
  {
    var t := Next(s, Evaluate(id));
    assert AppendOk(s.appends[id], s.events, HighWater(s));
    forall c | c in t.events ensures IsInserted(t.appends, t.events[c]) {
      if c == s.appends[id].draft.cursor {
        assert Inserted(t.appends, id, t.events[c]);
      } else {
        InsertedStays(s.appends, t.appends, s.events[c]);
      }
    }
  }

  lemma InsertKeepsAppends(s: State, id: AppendId)
    requires LogInv(s) && Enabled(s, Evaluate(id)) && s.appends[id].draft.cursor !in s.events
    ensures AppendsOk(Next(s, Evaluate(id)))
  {
    var t, draft := Next(s, Evaluate(id)), s.appends[id].draft;
    forall other | other in t.appends ensures AppendOk(t.appends[other], t.events, HighWater(t)) {
      AppendOkGrows(s.appends[other], s.events, HighWater(s), draft.cursor, draft);
    }
  }

  lemma InsertKeepsLogInv(s: State, id: AppendId)
    requires LogInv(s) && Enabled(s, Evaluate(id)) && s.appends[id].draft.cursor !in s.events
    ensures LogInv(Next(s, Evaluate(id)))
  {
    InsertKeepsEvents(s, id);
    InsertKeepsAppends(s, id);
  }

  lemma SettleIsSound(s: State, id: AppendId)
    requires LogInv(s) && id in s.appends && s.appends[id].draft.cursor in s.events
    requires s.events[s.appends[id].draft.cursor].eventId == s.appends[id].draft.eventId
    ensures s.events[s.appends[id].draft.cursor] == s.appends[id].draft
  {
    var c := s.appends[id].draft.cursor;
    var other :| Inserted(s.appends, other, s.events[c]);
  }

  lemma AppendStepKeepsLogInv(s: State, a: Action)
    requires LogInv(s) && Enabled(s, a) && !a.Allocate?
    ensures LogInv(Next(s, a))
  {
    match a
    case Begin(id, draft) =>
      BeginKeepsLogInv(s, id, draft);
    case CheckAndSend(id) =>
      AppendChangeKeepsLogInv(s, id, Check(s.appends[id], HighWater(s)));
    case ReadFails(id) =>
      AppendChangeKeepsLogInv(s, id, s.appends[id].(phase := Done(Err(StoreFailure))));
    case Evaluate(id) =>
      if s.appends[id].draft.cursor in s.events {
        AppendChangeKeepsLogInv(s, id, s.appends[id].(insert := Rejected));
      } else {
        InsertKeepsLogInv(s, id);
      }
    case Receive(id, reply) =>
      AppendChangeKeepsLogInv(s, id, Answered(s.appends[id], reply));
    case ReadBack(id) =>
      if Settled(s.appends[id], s.events).phase.outcome.Ok? {
        SettleIsSound(s, id);
      }
      AppendChangeKeepsLogInv(s, id, Settled(s.appends[id], s.events));
  }

  lemma StepKeepsInv(s: State, t: State)
    requires Inv(s) && Step(s, t)
    ensures Inv(t)
  {
    var a :| Enabled(s, a) && t == Next(s, a);
    if a.Allocate? {
      AllocateKeepsInv(s, a.action);
    } else {
      AppendStepKeepsLogInv(s, a);
    }
  }

  lemma InitialInv()
    ensures Inv(Initial)
  {
    A.InitialInv();
  }

  lemma {:induction false} RunKeepsInv(run: seq<State>, i: nat)
    requires IsRun(run) && i < |run|
    ensures Inv(run[i])
  {
    if i == 0 {
      InitialInv();
    } else {
      RunKeepsInv(run, i - 1);
      assert StepAt(run, i - 1);
      StepKeepsInv(run[i - 1], run[i]);
    }
  }

  // ---------------------------------------------------------------- what every run keeps

  /** Every stored cursor lies within 1..=high water of the same moment, in a valid partition. */
  lemma StoredCursorsAreReserved(run: seq<State>, i: nat, cursor: nat)
    requires IsRun(run) && i < |run| && cursor in run[i].events
    ensures 1 <= cursor <= HighWater(run[i])
    ensures run[i].events[cursor].cursor == cursor && CursorBucket(cursor).Ok?
  {
    RunKeepsInv(run, i);
  }

  ghost predicate EventsKept(s: State, t: State) {
    && (forall c :: c in s.events ==> c in t.events && t.events[c] == s.events[c])
    && (forall id :: id in s.appends && s.appends[id].phase.Done? ==>
          id in t.appends && t.appends[id].draft == s.appends[id].draft && t.appends[id].phase == s.appends[id].phase)
  }

  lemma AppendStepKeepsEvents(s: State, a: Action)
    requires Enabled(s, a) && !a.Allocate?
    ensures EventsKept(s, Next(s, a))
  {
  }

  lemma AllocatingKeepsEvents(s: State, alloc: A.State)
    ensures EventsKept(s, s.(alloc := alloc))
  {
  }

  lemma StepKeepsEvents(s: State, t: State)
    requires Step(s, t)
    ensures EventsKept(s, t)
  {
    var a :| Enabled(s, a) && t == Next(s, a);
    if a.Allocate? {
      AllocatingKeepsEvents(s, t.alloc);
    } else {
      AppendStepKeepsEvents(s, a);
    }
  }

  /** A stored event is never changed or removed, and a finished append keeps its outcome. */
  lemma {:induction false} StoredEventsNeverChange(run: seq<State>, i: nat, j: nat)
    requires IsRun(run) && i <= j < |run|
    ensures EventsKept(run[i], run[j])
    decreases j - i
  {
    if i < j {
      StoredEventsNeverChange(run, i, j - 1);
      assert StepAt(run, j - 1);
      StepKeepsEvents(run[j - 1], run[j]);
    }
  }

  /** Once an append has answered Ok, its own event is the stored one from then on. */
  lemma OkMeansStoredForGood(run: seq<State>, i: nat, j: nat, id: AppendId)
    requires IsRun(run) && i <= j < |run|
    requires id in run[i].appends && run[i].appends[id].phase.Done? && run[i].appends[id].phase.outcome.Ok?
    ensures var draft := run[i].appends[id].draft;
            && run[i].appends[id].phase.outcome.value == draft
            && draft.cursor in run[j].events
            && run[j].events[draft.cursor] == draft
  {
    RunKeepsInv(run, i);
    StoredEventsNeverChange(run, i, j);
  }

  /** Two appends of different events are never both told Ok for one cursor. */
  lemma OneEventWinsACursor(run: seq<State>, i: nat, a: AppendId, b: AppendId)
    requires IsRun(run) && i < |run| && a in run[i].appends && b in run[i].appends
    requires run[i].appends[a].phase.Done? && run[i].appends[a].phase.outcome.Ok?
    requires run[i].appends[b].phase.Done? && run[i].appends[b].phase.outcome.Ok?
    requires run[i].appends[a].draft.eventId != run[i].appends[b].draft.eventId
    ensures run[i].appends[a].draft.cursor != run[i].appends[b].draft.cursor
  {
    OkMeansStoredForGood(run, i, i, a);
    OkMeansStoredForGood(run, i, i, b);
  }

  /** An append refused as occupied names a cursor that holds an event from then on. */
  lemma OccupiedMeansTaken(run: seq<State>, i: nat, j: nat, id: AppendId)
    requires IsRun(run) && i <= j < |run| && id in run[i].appends
    requires run[i].appends[id].phase == Done(Err(CursorOccupied))
    ensures run[i].appends[id].draft.cursor in run[j].events
  {
    RunKeepsInv(run, i);
    StoredEventsNeverChange(run, i, j);
    assert AppendOk(run[i].appends[id], run[i].events, HighWater(run[i]));
  }

  /**
   The event it was refused for is another's, unless the same event was also appended by another
   call: then that call inserted it.
   */
  lemma OccupiedByAnother(run: seq<State>, i: nat, id: AppendId)
    requires IsRun(run) && i < |run| && id in run[i].appends
    requires run[i].appends[id].phase == Done(Err(CursorOccupied))
    ensures var s := run[i];
            var draft := s.appends[id].draft;
            && draft.cursor in s.events
            && (s.events[draft.cursor].eventId == draft.eventId <==>
                exists other :: other != id && Inserted(s.appends, other, draft))
  {
    RunKeepsInv(run, i);
    var s := run[i];
    var draft := s.appends[id].draft;
    assert AppendOk(s.appends[id], s.events, HighWater(s));
    if s.events[draft.cursor].eventId == draft.eventId {
      SettleIsSound(s, id);
      var other :| Inserted(s.appends, other, s.events[draft.cursor]);
      assert other != id;
    }
    if other :| other != id && Inserted(s.appends, other, draft) {
      assert AppendOk(s.appends[other], s.events, HighWater(s));
    }
  }

  lemma ExtendRun(run: seq<State>, a: Action) returns (longer: seq<State>)
    requires IsRun(run) && Enabled(run[|run| - 1], a)
    ensures IsRun(longer) && longer == run + [Next(run[|run| - 1], a)]
  {
    longer := run + [Next(run[|run| - 1], a)];
    assert Step(run[|run| - 1], Next(run[|run| - 1], a));
    forall i: nat ensures StepAt(longer, i) {
      assert StepAt(run, i);
    }
  }

  /** A run that reserves cursor 1. */
  lemma ReserveTheFirst() returns (run: seq<State>)
    ensures IsRun(run)
    ensures var s := run[|run| - 1]; HighWater(s) == 1 && s.events == map[] && s.appends == map[]
  {
    run := [Initial];
    run := ExtendRun(run, Allocate(A.Begin(0, 1)));
    run := ExtendRun(run, Allocate(A.ReadAndSend(0, 0)));
    run := ExtendRun(run, Allocate(A.Evaluate(0)));
  }

  /**
   A run in which a caller is refused for its own event: the first append applies and its reply
   is an error, and the retry of the same event is told that the cursor is occupied.
   */
  lemma RetryIsToldOccupied(draft: Event) returns (run: seq<State>)
    requires EventFault(draft).None? && draft.cursor == 1
    ensures IsRun(run)
    ensures var s := run[|run| - 1];
            && 1 in s.appends && s.appends[1] == Append(draft, Rejected, Done(Err(CursorOccupied)))
            && s.events == map[1 := draft]
  {
    run := ReserveTheFirst();
    run := ExtendRun(run, Begin(0, draft));
    run := ExtendRun(run, CheckAndSend(0));
    run := ExtendRun(run, Evaluate(0));
    run := ExtendRun(run, Receive(0, A.Fails));
    run := ExtendRun(run, Begin(1, draft));
    run := ExtendRun(run, CheckAndSend(1));
    run := ExtendRun(run, Evaluate(1));
    run := ExtendRun(run, Receive(1, A.SaysNotApplied));
  }

  // ---------------------------------------------------------------- what replay reads

  function SnapshotOf(s: State): Replay.Snapshot {
    Replay.Snapshot(s.events, HighWater(s))
  }

  lemma StepRaisesHighWater(s: State, t: State)
    requires A.Inv(s.alloc) && Step(s, t)
    ensures HighWater(s) <= HighWater(t)
  {
    var a :| Enabled(s, a) && t == Next(s, a);
    if a.Allocate? {
      HighWaterRises(s.alloc, a.action);
    } else {
      assert t.alloc == s.alloc;
    }
  }

  lemma StepGrowsSnapshot(s: State, t: State)
    requires A.Inv(s.alloc) && Step(s, t)
    ensures Replay.Grows(SnapshotOf(s), SnapshotOf(t))
  {
    StepRaisesHighWater(s, t);
    StepKeepsEvents(s, t);
  }

  lemma {:induction false} NextGrowsSnapshot(run: seq<State>, k: nat)
    requires IsRun(run) && k + 1 < |run|
    ensures Replay.Grows(SnapshotOf(run[k]), SnapshotOf(run[k + 1]))
  {
    RunKeepsInv(run, k);
    assert StepAt(run, k);
    StepGrowsSnapshot(run[k], run[k + 1]);
  }

  lemma {:induction false} RunGrowsSnapshot(run: seq<State>, i: nat, j: nat)
    requires IsRun(run) && i <= j < |run|
    ensures Replay.Grows(SnapshotOf(run[i]), SnapshotOf(run[j]))
    decreases j - i
  {
    if i < j {
      RunGrowsSnapshot(run, i, j - 1);
      NextGrowsSnapshot(run, j - 1);
      Replay.GrowthAddsUp(SnapshotOf(run[i]), SnapshotOf(run[j - 1]), SnapshotOf(run[j]));
    }
  }

  /**
   When the reads of one page happen in a run: the high water first, then each partition at a
   moment of its own, and the page is done.
   */
  datatype Moments = Moments(highWater: nat, partition: nat -> nat, done: nat)

  predicate InOrder(run: seq<State>, m: Moments, b: nat) {
    m.highWater <= m.partition(b) <= m.done < |run|
  }

  ghost predicate ReadAt(run: seq<State>, m: Moments, p: CqlReader.PageRead) {
    && (forall b: nat {:trigger InOrder(run, m, b)} :: InOrder(run, m, b))
    && (forall b: nat {:trigger p.view(b)} ::
          InOrder(run, m, b) ==> p.view(b) == CqlReplay.Stored(run[m.partition(b)].events))
    && m.highWater < |run| && m.done < |run|
    && p.first == SnapshotOf(run[m.highWater]) && p.last == SnapshotOf(run[m.done])
  }

  lemma {:induction false} RunIsConsistent(run: seq<State>, i: nat)
    requires IsRun(run) && i < |run|
    ensures Replay.Consistent(SnapshotOf(run[i]))
  {
    RunKeepsInv(run, i);
  }

  lemma {:induction false} PagesAreTimely(run: seq<State>, m: Moments, p: CqlReader.PageRead)
    requires IsRun(run) && ReadAt(run, m, p)
    ensures CqlReader.Timely(p)
  {
    assert InOrder(run, m, 0);
    RunIsConsistent(run, m.highWater);
    RunIsConsistent(run, m.done);
    RunGrowsSnapshot(run, m.highWater, m.done);
    forall b: nat
      ensures p.view(b).Stored? && CqlReader.Within(p.first.events, p.view(b).events)
           && CqlReader.Within(p.view(b).events, p.last.events)
    {
      assert InOrder(run, m, b);
      RunGrowsSnapshot(run, m.highWater, m.partition(b));
      RunGrowsSnapshot(run, m.partition(b), m.done);
    }
  }

  /**
   The pages a reader reads in any run of reserves and appends, each read at its own moment, are
   what the results about the CQL reader ask for.
   */
  lemma {:induction false} RunsFeedPages(run: seq<State>, moments: seq<Moments>, pages: seq<CqlReader.PageRead>)
    requires IsRun(run) && |moments| == |pages|
    requires forall k :: 0 <= k < |pages| ==> ReadAt(run, moments[k], pages[k])
    requires forall k, l :: 0 <= k < l < |pages| ==> moments[k].done <= moments[l].highWater
    ensures CqlReader.LivingPages(pages)
  {
    forall k | 0 <= k < |pages| ensures CqlReader.Timely(pages[k]) {
      PagesAreTimely(run, moments[k], pages[k]);
    }
    forall k, l | 0 <= k < l < |pages| ensures Replay.Grows(pages[k].last, pages[l].first) {
      assert ReadAt(run, moments[k], pages[k]) && ReadAt(run, moments[l], pages[l]);
      RunGrowsSnapshot(run, moments[k].done, moments[l].highWater);
    }
  }
}
