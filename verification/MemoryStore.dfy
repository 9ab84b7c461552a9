/**
 The in-memory control store: one mutable map of streams, keyed by tenant and server
 fingerprint. It is the simple store the CQL one is measured against.
 */
module MemoryStore {
  import opened Wrappers
  import opened ControlTypes
  import opened Arithmetic
  import Replay

  type StreamKey = (Uuid, string)

  datatype Stream = Stream(next: nat, events: map<nat, Event>, commands: map<Uuid, Command>)

  const FreshStream := Stream(1, map[], map[])

  function SnapshotOf(stream: Stream): Replay.Snapshot {
    Replay.Snapshot(stream.events, if stream.next == 0 then 0 else stream.next - 1)
  }

  /** Cursors start at 1, events lie below the next cursor, commands are filed under their id. */
  ghost predicate StreamOk(stream: Stream) {
    && 1 <= stream.next <= I64_MAX + 1
    && Replay.Consistent(SnapshotOf(stream))
    && forall c :: c in stream.commands ==> stream.commands[c].commandId == c
  }

  /** The stream behind a key; an absent one reads as fresh. */
  function StreamIn(streams: map<StreamKey, Stream>, key: StreamKey): Stream {
    if key in streams then streams[key] else FreshStream
  }

  /** What a replay of a stream reads. */
  function SnapshotIn(streams: map<StreamKey, Stream>, key: StreamKey): Replay.Snapshot {
    SnapshotOf(StreamIn(streams, key))
  }

  /** No stream has lost or changed an event, or lowered its high water. */
  ghost predicate AllGrow(before: map<StreamKey, Stream>, after: map<StreamKey, Stream>) {
    forall key :: Replay.Grows(SnapshotIn(before, key), SnapshotIn(after, key))
  }

  /** Writing one stream that has grown, or not changed, makes the whole store grow. */
  lemma OneStreamGrows(streams: map<StreamKey, Stream>, key: StreamKey, stream: Stream)
    requires Replay.Grows(SnapshotIn(streams, key), SnapshotOf(stream))
    ensures AllGrow(streams, streams[key := stream])
  {
  }

  class InMemoryControlStore {
    var streams: map<StreamKey, Stream>

    ghost predicate Valid()
      reads this
    {
      forall key :: key in streams ==> StreamOk(streams[key])
    }

    constructor ()
      ensures Valid() && streams == map[]
    {
      streams := map[];
    }

    function StreamAt(key: StreamKey): Stream
      reads this
    {
      StreamIn(streams, key)
    }

    method ReserveCursorBlock(key: StreamKey, size: nat) returns (block: Result<CursorBlock, ControlError>)
      requires Valid()
      modifies this
      ensures Valid() && AllGrow(old(streams), streams)
      ensures !ValidStreamName(key.1) ==> block == Err(InvalidStream) && streams == old(streams)
      ensures ValidStreamName(key.1) && !ValidBlockSize(size) ==>
                block == Err(InvalidBlockSize) && streams == old(streams)
      ensures ValidStreamName(key.1) && ValidBlockSize(size) ==>
                && block == Reserve(old(StreamAt(key)).next, size)
                && streams == old(streams)[key := if block.Ok? then old(StreamAt(key)).(next := block.value.end + 1)
                                                  else old(StreamAt(key))]
    {
      if !ValidStreamName(key.1) {
        return Err(InvalidStream);
      }
      if !ValidBlockSize(size) {
        return Err(InvalidBlockSize);
      }
      var stream := StreamAt(key);
      streams := streams[key := stream];
      var start := stream.next;
      var end := start + size - 1;
      if end > I64_MAX {
        return Err(CursorSpaceExhausted);
      }
      OneStreamGrows(old(streams), key, stream.(next := end + 1));
      streams := streams[key := stream.(next := end + 1)];
      assert streams == old(streams)[key := stream.(next := end + 1)];
      block := Ok(CursorBlock(start, end));
    }

    method AppendEvent(key: StreamKey, draft: Event) returns (event: Result<Event, ControlError>)
      requires Valid()
      modifies this
      ensures Valid() && AllGrow(old(streams), streams)
      ensures event == if !ValidStreamName(key.1) then Err(InvalidStream)
                       else if EventFault(draft).Some? then Err(EventFault(draft).value)
                       else if key !in old(streams) || draft.cursor >= old(streams)[key].next
                       then Err(CursorNotReserved)
                       else if draft.cursor in old(streams)[key].events then Err(CursorOccupied)
                       else Ok(draft)
      ensures event.Ok? ==>
                var before := old(streams)[key];
                streams == old(streams)[key := before.(events := before.events[draft.cursor := draft])]
      ensures event.Err? ==> streams == old(streams)
    {
      if !ValidStreamName(key.1) {
        return Err(InvalidStream);
      }
      var fault := EventFault(draft);
      if fault.Some? {
        return Err(fault.value);
      }
      if key !in streams || draft.cursor >= streams[key].next {
        return Err(CursorNotReserved);
      }
      if draft.cursor in streams[key].events {
        return Err(CursorOccupied);
      }
      var stream := streams[key];
      OneStreamGrows(streams, key, stream.(events := stream.events[draft.cursor := draft]));
      streams := streams[key := stream.(events := stream.events[draft.cursor := draft])];
      event := Ok(draft);
    }

    method EventsAfter(key: StreamKey, afterCursor: Option<nat>, limit: nat)
      returns (page: Result<ReplayPage, ControlError>)
      requires Valid()
      ensures !ValidStreamName(key.1) ==> page == Err(InvalidStream)
      ensures ValidStreamName(key.1) && !ValidReplayLimit(limit) ==> page == Err(InvalidReplayLimit)
      ensures ValidStreamName(key.1) && ValidReplayLimit(limit) ==>
                var s, after := SnapshotIn(streams, key), if afterCursor.Some? then afterCursor.value else 0;
                && page == Ok(Replay.MemoryPage(s, after, limit))
                && Replay.IsPage(s, after, limit, page.value)
    {
      if !ValidStreamName(key.1) {
        return Err(InvalidStream);
      }
      if !ValidReplayLimit(limit) {
        return Err(InvalidReplayLimit);
      }
      var after := if afterCursor.Some? then afterCursor.value else 0;
      Replay.MemoryPageIsPage(SnapshotIn(streams, key), after, limit);
      if key !in streams {
        Replay.NothingAboveHighWater(SnapshotOf(FreshStream), after, 0);
        return Ok(ReplayPage(0, []));
      }
      var stream := streams[key];
      var scan := Replay.Truncate(Replay.Remaining(SnapshotOf(stream), after), limit + 1);
      var hasMore := |scan| > limit;
      var events := Replay.Truncate(scan, limit);
      page := Ok(ReplayPage(if hasMore then events[|events| - 1].cursor else stream.next - 1, events));
    }

    method PutCommandIfAbsent(key: StreamKey, command: Command) returns (outcome: Result<CommandInsert, ControlError>)
      requires Valid()
      modifies this
      ensures Valid() && AllGrow(old(streams), streams)
      ensures !ValidStreamName(key.1) ==> outcome == Err(InvalidStream)
      ensures ValidStreamName(key.1) && CommandFault(command).Some? ==> outcome == Err(CommandFault(command).value)
      ensures outcome.Ok? <==> ValidStreamName(key.1) && CommandFault(command).None?
      ensures outcome.Err? ==> streams == old(streams)
      ensures outcome.Ok? ==>
                var before := old(StreamAt(key));
                if command.commandId in before.commands
                then outcome.value == Duplicate(before.commands[command.commandId])
                     && streams == old(streams)[key := before]
                else outcome.value == Inserted(command)
                     && streams == old(streams)[key :=
                                            before.(commands := before.commands[command.commandId := command])]
    {
      if !ValidStreamName(key.1) {
        return Err(InvalidStream);
      }
      var fault := CommandFault(command);
      if fault.Some? {
        return Err(fault.value);
      }
      var stream := StreamAt(key);
      streams := streams[key := stream];
      if command.commandId in stream.commands {
        return Ok(Duplicate(stream.commands[command.commandId]));
      }
      ghost var later := stream.(commands := stream.commands[command.commandId := command]);
      OneStreamGrows(old(streams), key, later);
      streams := streams[key := stream.(commands := stream.commands[command.commandId := command])];
      assert streams == old(streams)[key := later];
      outcome := Ok(Inserted(command));
    }

    method GetCommand(key: StreamKey, commandId: Uuid) returns (command: Result<Option<Command>, ControlError>)
      requires Valid()
      ensures !ValidStreamName(key.1) ==> command == Err(InvalidStream)
      ensures ValidStreamName(key.1) ==>
                && command.Ok?
                && (command.value.Some? <==> commandId in StreamAt(key).commands)
                && (command.value.Some? ==> command.value.value == StreamAt(key).commands[commandId])
    {
      if !ValidStreamName(key.1) {
        return Err(InvalidStream);
      }
      if key in streams && commandId in streams[key].commands {
        command := Ok(Some(streams[key].commands[commandId]));
      } else {
        command := Ok(None);
      }
    }

    method UpdateCommand(key: StreamKey, commandId: Uuid, update: CommandUpdate)
      returns (outcome: Result<Command, ControlError>)
      requires Valid()
      modifies this
      ensures Valid() && AllGrow(old(streams), streams)
      ensures outcome.Ok? <==>
                && ValidStreamName(key.1)
                && UpdateFault(update).None?
                && commandId in old(StreamAt(key)).commands
                && (MatchesUpdate(old(StreamAt(key)).commands[commandId], update)
                    || AllowedTransition(old(StreamAt(key)).commands[commandId].state, update.state))
      ensures outcome.Err? ==>
                && streams == old(streams)
                && outcome.error == if !ValidStreamName(key.1) then InvalidStream
                                    else if UpdateFault(update).Some? then UpdateFault(update).value
                                    else if commandId !in old(StreamAt(key)).commands then NoSuchCommand
                                    else InvalidTransition
      ensures outcome.Ok? ==>
                var stream := old(StreamAt(key));
                var before := stream.commands[commandId];
                && MatchesUpdate(outcome.value, update)
                && outcome.value == (if MatchesUpdate(before, update) then before else ApplyUpdate(before, update))
                && streams == old(streams)[key := stream.(commands := stream.commands[commandId := outcome.value])]
    {
      if !ValidStreamName(key.1) {
        return Err(InvalidStream);
      }
      var fault := UpdateFault(update);
      if fault.Some? {
        return Err(fault.value);
      }
      if key !in streams || commandId !in streams[key].commands {
        return Err(NoSuchCommand);
      }
      var stream := streams[key];
      var command := stream.commands[commandId];
      if MatchesUpdate(command, update) {
        assert stream.commands == stream.commands[commandId := command];
        return Ok(command);
      }
      if !AllowedTransition(command.state, update.state) {
        return Err(InvalidTransition);
      }
      command := ApplyUpdate(command, update);
      OneStreamGrows(streams, key, stream.(commands := stream.commands[commandId := command]));
      streams := streams[key := stream.(commands := stream.commands[commandId := command])];
      outcome := Ok(command);
    }
  }

  // ---------------------------------------------------------------- a reader among writers

  /** What others may do to the store between two pages of a reader. */
  datatype Op =
    | ReserveOp(key: StreamKey, size: nat)
    | AppendOp(key: StreamKey, draft: Event)
    | PutOp(key: StreamKey, command: Command)
    | UpdateOp(key: StreamKey, commandId: Uuid, update: CommandUpdate)

  method Perform(store: InMemoryControlStore, op: Op)
    requires store.Valid()
    modifies store
    ensures store.Valid() && AllGrow(old(store.streams), store.streams)
  {
    match op
    case ReserveOp(key, size) => var _ := store.ReserveCursorBlock(key, size);
    case AppendOp(key, draft) => var _ := store.AppendEvent(key, draft);
    case PutOp(key, command) => var _ := store.PutCommandIfAbsent(key, command);
    case UpdateOp(key, commandId, update) => var _ := store.UpdateCommand(key, commandId, update);
  }

  lemma AllGrowthAddsUp(a: map<StreamKey, Stream>, b: map<StreamKey, Stream>, c: map<StreamKey, Stream>)
    requires AllGrow(a, b) && AllGrow(b, c)
    ensures AllGrow(a, c)
  {
    forall key ensures Replay.Grows(SnapshotIn(a, key), SnapshotIn(c, key)) {
      Replay.GrowthAddsUp(SnapshotIn(a, key), SnapshotIn(b, key), SnapshotIn(c, key));
    }
  }

  method PerformAll(store: InMemoryControlStore, ops: seq<Op>)
    requires store.Valid()
    modifies store
    ensures store.Valid() && AllGrow(old(store.streams), store.streams)
  {
    for i := 0 to |ops|
      invariant store.Valid() && AllGrow(old(store.streams), store.streams)
    {
      ghost var before := store.streams;
      Perform(store, ops[i]);
      AllGrowthAddsUp(old(store.streams), before, store.streams);
    }
  }

  /** Where a reader is after `k` pages, and what it has got. */
  ghost predicate HasRead(first: Replay.Snapshot, start: nat, k: nat, cursor: nat, delivered: seq<Event>) {
    start <= cursor && Min(start + k, first.highWater) <= cursor && Replay.Brings(first, start, cursor, delivered)
  }

  /** One page takes the reader on: what it had delivered, and what the page adds. */
  lemma {:induction false} PageDelivers(
      first: Replay.Snapshot, now: Replay.Snapshot, start: nat, cursor: nat, limit: nat, delivered: seq<Event>, k: nat)
    requires Replay.Consistent(now) && Replay.Grows(first, now) && 0 < limit
    requires HasRead(first, start, k, cursor, delivered) && cursor <= now.highWater
    ensures var page := Replay.MemoryPage(now, cursor, limit);
            page.highWater <= now.highWater && HasRead(first, start, k + 1, page.highWater, delivered + page.events)
  {
    var page := Replay.MemoryPage(now, cursor, limit);
    Replay.PageCoversItsRange(now, cursor, limit);
    Replay.PageBrings(first, now, cursor, limit);
    Replay.BringsMore(first, start, cursor, page.highWater, delivered, page.events);
  }

  /**
   A reader that asks for page after page, with any calls of others between its pages. It gets
   events in ascending order, none twice, and skips none of those stored when it began; once it
   has asked for as many pages as there were cursors left, it has them all.
   */
  method FollowReplay(store: InMemoryControlStore, key: StreamKey, start: nat, limit: nat, between: seq<seq<Op>>)
    returns (delivered: seq<Event>, cursor: nat)
    requires store.Valid() && ValidStreamName(key.1) && ValidReplayLimit(limit)
    requires start <= SnapshotIn(store.streams, key).highWater
    modifies store
    ensures store.Valid() && AllGrow(old(store.streams), store.streams)
    ensures Replay.Brings(SnapshotIn(old(store.streams), key), start, cursor, delivered)
    ensures |between| >= SnapshotIn(old(store.streams), key).highWater - start ==>
              cursor >= SnapshotIn(old(store.streams), key).highWater
  {
    delivered, cursor := [], start;
    ghost var first := SnapshotIn(store.streams, key);
    for k := 0 to |between|
      invariant store.Valid() && AllGrow(old(store.streams), store.streams)
      invariant cursor <= SnapshotIn(store.streams, key).highWater
      invariant HasRead(first, start, k, cursor, delivered)
    {
      ghost var now := SnapshotIn(store.streams, key);
      var page := store.EventsAfter(key, Some(cursor), limit);
      assert Replay.Grows(first, now);
      PageDelivers(first, now, start, cursor, limit, delivered, k);
      delivered, cursor := delivered + page.value.events, page.value.highWater;
      ghost var before := store.streams;
      PerformAll(store, between[k]);
      AllGrowthAddsUp(old(store.streams), before, store.streams);
      assert Replay.Grows(SnapshotIn(before, key), SnapshotIn(store.streams, key));
    }
  }
}
