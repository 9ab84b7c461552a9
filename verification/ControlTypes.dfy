/** Option and Result, shared by every model in this project. */
module Wrappers {
  datatype Option<+T> = None | Some(value: T)

  datatype Result<+T, +E> = Ok(value: T) | Err(error: E)
}

/**
 The vocabulary of the mobile control store: its constants, its records and the pure
 validators that run before any row is touched.

 A `Uuid` is a number, a `Json` value is its serialised text, and an instant is a number
 of ticks: the store only compares, copies and measures them.
 */
module ControlTypes {
  import opened Wrappers

  const CURSOR_BUCKET_SIZE: nat := 4_096
  const MAX_CURSOR_BLOCK: nat := 4_096
  const MAX_REPLAY_EVENTS: nat := 256
  const MAX_PAYLOAD_BYTES: nat := 16 * 1024
  const ALLOCATION_ATTEMPTS: nat := 32
  const I32_MAX: nat := 0x7fff_ffff
  const I64_MAX: nat := 0x7fff_ffff_ffff_ffff

  type Uuid = nat
  type Json = string
  type Instant = int

  datatype ControlError =
    | InvalidStream
    | InvalidBlockSize
    | InvalidReplayLimit
    | PayloadTooLarge
    | InvalidEventCursor
    | InvalidEventType
    | InvalidCommandType
    | ResultCursorTooLarge
    | CursorSpaceExhausted
    | IntegerOutOfRange
    | CursorNotReserved
    | CursorOccupied
    | InsertLeftNoRow
    | NoSuchCommand
    | InvalidTransition
    | ChangedConcurrently
    | NotVerified
    | Contended
    | StoreFailure

  /** Inclusive cursor range reserved for one server process. */
  datatype CursorBlock = CursorBlock(start: nat, end: nat)

  datatype CommandState = Queued | Running | Succeeded | Failed | Cancelled | Expired

  datatype Command = Command(
    commandId: Uuid,
    commandType: string,
    request: Json,
    state: CommandState,
    result: Option<Json>,
    resultCursor: Option<nat>,
    createdAt: Instant,
    updatedAt: Instant)

  datatype CommandUpdate = CommandUpdate(
    state: CommandState,
    result: Option<Json>,
    resultCursor: Option<nat>,
    updatedAt: Instant)

  datatype CommandInsert = Inserted(command: Command) | Duplicate(command: Command)

  /** A draft and the event stored from it hold the same fields, so one record serves both. */
  datatype Event = Event(
    cursor: nat,
    eventId: Uuid,
    commandId: Option<Uuid>,
    kind: string,
    payload: Json,
    createdAt: Instant)

  datatype ReplayPage = ReplayPage(highWater: nat, events: seq<Event>)

  predicate ValidStreamName(fingerprint: string) {
    0 < |fingerprint| <= 128
  }

  predicate ValidBlockSize(size: nat) {
    0 < size <= MAX_CURSOR_BLOCK
  }

  predicate ValidReplayLimit(limit: nat) {
    0 < limit <= MAX_REPLAY_EVENTS
  }

  predicate ValidPayload(payload: Json) {
    |payload| <= MAX_PAYLOAD_BYTES
  }

  function EventFault(draft: Event): Option<ControlError> {
    if draft.cursor == 0 || draft.cursor > I64_MAX then Some(InvalidEventCursor)
    else if draft.kind == [] || |draft.kind| > 64 then Some(InvalidEventType)
    else if !ValidPayload(draft.payload) then Some(PayloadTooLarge)
    else None
  }

  function ResultFault(result: Option<Json>, resultCursor: Option<nat>): Option<ControlError> {
    if result.Some? && !ValidPayload(result.value) then Some(PayloadTooLarge)
    else if resultCursor.Some? && resultCursor.value > I64_MAX then Some(ResultCursorTooLarge)
    else None
  }

  function CommandFault(command: Command): Option<ControlError> {
    if command.commandType == [] || |command.commandType| > 64 then Some(InvalidCommandType)
    else if !ValidPayload(command.request) then Some(PayloadTooLarge)
    else ResultFault(command.result, command.resultCursor)
  }

  function UpdateFault(update: CommandUpdate): Option<ControlError> {
    ResultFault(update.result, update.resultCursor)
  }

  predicate MatchesUpdate(command: Command, update: CommandUpdate) {
    && command.state == update.state
    && command.result == update.result
    && command.resultCursor == update.resultCursor
  }

  predicate AllowedTransition(current: CommandState, next: CommandState) {
    match (current, next)
    case (Queued, Running) => true
    case (Queued, Failed) => true
    case (Queued, Cancelled) => true
    case (Queued, Expired) => true
    case (Running, Succeeded) => true
    case (Running, Failed) => true
    case (Running, Cancelled) => true
    case (Running, Expired) => true
    case _ => false
  }

  function ApplyUpdate(command: Command, update: CommandUpdate): Command {
    command.(
      state := update.state,
      result := update.result,
      resultCursor := update.resultCursor,
      updatedAt := update.updatedAt)
  }

  /** The in-memory allocator: the block that starts at `next`, if it ends in range. */
  function Reserve(next: nat, size: nat): Result<CursorBlock, ControlError>
    requires ValidBlockSize(size)
  {
    var end := next + size - 1;
    if end > I64_MAX then Err(CursorSpaceExhausted) else Ok(CursorBlock(next, end))
  }

  /** The partition that holds `cursor`; partitions are keyed by a 32-bit integer. */
  function CursorBucket(cursor: nat): Result<nat, ControlError> {
    if cursor == 0 then Err(InvalidEventCursor)
    else
      var bucket := (cursor - 1) / CURSOR_BUCKET_SIZE;
      if bucket > I32_MAX then Err(IntegerOutOfRange) else Ok(bucket)
  }
}
