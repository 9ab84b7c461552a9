/**
 The command lifecycle as a protocol over conditionally written rows.

 An insert applies only when the row is absent; an update applies only when the row still
 shows the state that was read. Writes are evaluated atomically at any moment after they
 are sent, even after their caller has failed, and replies may be missing or be errors.
 */
module CommandLifecycle {
  import opened Wrappers
  import opened ControlTypes
  import A = CursorAllocator

  type CallId = nat

  datatype Status = NotSent | Pending | Applied | Rejected

  datatype PutPhase = PutAwaiting | PutReadingBack | PutDone(outcome: Result<CommandInsert, ControlError>)

  datatype Put = Put(command: Command, write: Status, phase: PutPhase)

  datatype UpdatePhase = Reading | Awaiting | Verifying(refused: bool) | Done(outcome: Result<Command, ControlError>)

  /** `existing` is the row the update read and validated before it sent its write. */
  datatype Update = Update(
    commandId: Uuid,
    change: CommandUpdate,
    existing: Option<Command>,
    write: Status,
    phase: UpdatePhase)

  /** `log` only records history: the command of every effective update, in order. */
  datatype State = State(
    rows: map<Uuid, Command>,
    puts: map<CallId, Put>,
    updates: map<CallId, Update>,
    log: seq<Uuid>)

  datatype Action =
    | BeginPut(id: CallId, command: Command)
    | EvaluatePut(id: CallId)
    | ReceivePut(id: CallId, reply: A.Reply)
    | ReadBackPut(id: CallId)
    | PutReadFails(id: CallId)
    | BeginUpdate(id: CallId, commandId: Uuid, change: CommandUpdate)
    | ReadAndSend(id: CallId)
    | EvaluateUpdate(id: CallId)
    | ReceiveUpdate(id: CallId, reply: A.Reply)
    | Verify(id: CallId)
    | UpdateReadFails(id: CallId)

  const Initial := State(map[], map[], map[], [])

  predicate Truthful(reply: A.Reply, write: Status) {
    && (reply == A.SaysApplied ==> write == Applied)
    && (reply == A.SaysNotApplied ==> write == Rejected)
  }

  predicate Enabled(s: State, a: Action) {
    match a
    case BeginPut(id, _) => id !in s.puts
    case EvaluatePut(id) => id in s.puts && s.puts[id].write == Pending
    case ReceivePut(id, reply) => id in s.puts && s.puts[id].phase == PutAwaiting && Truthful(reply, s.puts[id].write)
    case ReadBackPut(id) => id in s.puts && s.puts[id].phase == PutReadingBack
    case PutReadFails(id) => id in s.puts && s.puts[id].phase == PutReadingBack
    case BeginUpdate(id, _, _) => id !in s.updates
    case ReadAndSend(id) => id in s.updates && s.updates[id].phase == Reading
    case EvaluateUpdate(id) => id in s.updates && s.updates[id].write == Pending && s.updates[id].existing.Some?
    case ReceiveUpdate(id, reply) =>
      id in s.updates && s.updates[id].phase == Awaiting && Truthful(reply, s.updates[id].write)
    case Verify(id) => id in s.updates && s.updates[id].phase.Verifying?
    case UpdateReadFails(id) => id in s.updates && (s.updates[id].phase.Reading? || s.updates[id].phase.Verifying?)
  }

  function StartedPut(command: Command): Put {
    match CommandFault(command)
    case Some(error) => Put(command, NotSent, PutDone(Err(error)))
    case None => Put(command, Pending, PutAwaiting)
  }

  /** Anything but a reported success is settled by reading the row, and reported as Duplicate. */
  function AnsweredPut(put: Put, reply: A.Reply): Put {
    put.(phase :=
      match reply
      case SaysApplied => PutDone(Ok(Inserted(put.command)))
      case SaysNotApplied => PutReadingBack
      case SaysNothing => PutReadingBack
      case Fails => PutDone(Err(StoreFailure)))
  }

  function SettledPut(put: Put, rows: map<Uuid, Command>): Put {
    put.(phase := PutDone(
      if put.command.commandId in rows then Ok(Duplicate(rows[put.command.commandId])) else Err(NoSuchCommand)))
  }

  function StartedUpdate(commandId: Uuid, change: CommandUpdate): Update {
    match UpdateFault(change)
    case Some(error) => Update(commandId, change, None, NotSent, Done(Err(error)))
    case None => Update(commandId, change, None, NotSent, Reading)
  }

  function SentUpdate(u: Update, rows: map<Uuid, Command>): Update {
    if u.commandId !in rows then u.(phase := Done(Err(NoSuchCommand)))
    else if MatchesUpdate(rows[u.commandId], u.change) then u.(phase := Done(Ok(rows[u.commandId])))
    else if !AllowedTransition(rows[u.commandId].state, u.change.state) then u.(phase := Done(Err(InvalidTransition)))
    else u.(existing := Some(rows[u.commandId]), write := Pending, phase := Awaiting)
  }

  function AnsweredUpdate(u: Update, reply: A.Reply): Update {
    u.(phase :=
      match reply
      case SaysApplied => Verifying(false)
      case SaysNotApplied => Verifying(true)
      case SaysNothing => Verifying(false)
      case Fails => Done(Err(StoreFailure)))
  }

  function VerifiedUpdate(u: Update, rows: map<Uuid, Command>): Update
    requires u.phase.Verifying?
  {
    u.(phase := Done(
      if u.commandId !in rows then Err(NoSuchCommand)
      else if MatchesUpdate(rows[u.commandId], u.change) then Ok(rows[u.commandId])
      else Err(if u.phase.refused then ChangedConcurrently else NotVerified)))
  }

  /** The guard of the conditional update: the row still shows the state that was read. */
  predicate StateGuard(s: State, id: CallId)
    requires id in s.updates && s.updates[id].existing.Some?
  {
    var u := s.updates[id];
    u.commandId in s.rows && s.rows[u.commandId].state == u.existing.value.state
  }

  function SetPut(s: State, id: CallId, put: Put): State {
    s.(puts := s.puts[id := put])
  }

  function SetUpdate(s: State, id: CallId, u: Update): State {
    s.(updates := s.updates[id := u])
  }

  function Inserting(s: State, id: CallId): State
    requires id in s.puts
  {
    var put := s.puts[id];
    if put.command.commandId in s.rows then SetPut(s, id, put.(write := Rejected))
    else SetPut(s, id, put.(write := Applied)).(rows := s.rows[put.command.commandId := put.command])
  }

  function Updating(s: State, id: CallId): State
    requires id in s.updates && s.updates[id].existing.Some?
  {
    var u := s.updates[id];
    if StateGuard(s, id) then
      SetUpdate(s, id, u.(write := Applied))
      .(rows := s.rows[u.commandId := ApplyUpdate(s.rows[u.commandId], u.change)], log := s.log + [u.commandId])
    else SetUpdate(s, id, u.(write := Rejected))
  }

  function Next(s: State, a: Action): State
    requires Enabled(s, a)
  {
    match a
    case BeginPut(id, command) => SetPut(s, id, StartedPut(command))
    case EvaluatePut(id) => Inserting(s, id)
    case ReceivePut(id, reply) => SetPut(s, id, AnsweredPut(s.puts[id], reply))
    case ReadBackPut(id) => SetPut(s, id, SettledPut(s.puts[id], s.rows))
    case PutReadFails(id) => SetPut(s, id, s.puts[id].(phase := PutDone(Err(StoreFailure))))
    case BeginUpdate(id, commandId, change) => SetUpdate(s, id, StartedUpdate(commandId, change))
    case ReadAndSend(id) => SetUpdate(s, id, SentUpdate(s.updates[id], s.rows))
    case EvaluateUpdate(id) => Updating(s, id)
    case ReceiveUpdate(id, reply) => SetUpdate(s, id, AnsweredUpdate(s.updates[id], reply))
    case Verify(id) => SetUpdate(s, id, VerifiedUpdate(s.updates[id], s.rows))
    case UpdateReadFails(id) => SetUpdate(s, id, s.updates[id].(phase := Done(Err(StoreFailure))))
  }

  ghost predicate Step(s: State, t: State) {
    exists a :: Enabled(s, a) && t == Next(s, a)
  }

  ghost predicate StepAt(run: seq<State>, i: nat) {
    i + 1 < |run| ==> Step(run[i], run[i + 1])
  }

  /** Every interleaving of inserts and updates. */
  ghost predicate IsRun(run: seq<State>) {
    && run != []
    && run[0] == Initial
    && forall i :: StepAt(run, i)
  }

  // ---------------------------------------------------------------- rank

  /** How far a command has come: waiting, started, finished. */
  function Rank(state: CommandState): nat {
    match state
    case Queued => 0
    case Running => 1
    case _ => 2
  }

  predicate Terminal(state: CommandState) {
    Rank(state) == 2
  }

  /** Every allowed transition strictly raises the rank, and none leaves a finished command. */
  lemma TransitionsRaiseRank(current: CommandState, next: CommandState)
    ensures AllowedTransition(current, next) ==> Rank(current) < Rank(next)
    ensures Terminal(current) ==> !AllowedTransition(current, next)
  {
  }

  /** `later` is `earlier` itself or has overtaken it; the identity of the command is the same. */
  predicate Follows(earlier: Command, later: Command) {
    && later.commandId == earlier.commandId
    && later.commandType == earlier.commandType
    && later.request == earlier.request
    && later.createdAt == earlier.createdAt
    && (later == earlier || Rank(earlier.state) < Rank(later.state))
  }

  // ---------------------------------------------------------------- invariant

  predicate PutOk(put: Put, rows: map<Uuid, Command>) {
    && (put.write == Applied ==> put.command.commandId in rows && Follows(put.command, rows[put.command.commandId]))
    && (put.phase.PutDone? && put.phase.outcome.Ok? && put.phase.outcome.value.Inserted? ==>
          put.write == Applied && put.phase.outcome.value.command == put.command)
    && (put.phase.PutDone? && put.phase.outcome.Ok? && put.phase.outcome.value.Duplicate? ==>
          put.command.commandId in rows && Follows(put.phase.outcome.value.command, rows[put.command.commandId]))
  }

  predicate UpdateOk(u: Update, rows: map<Uuid, Command>) {
    && (u.write != NotSent ==> u.existing.Some?)
    && (u.existing.Some? ==>
          && u.commandId in rows
          && Follows(u.existing.value, rows[u.commandId])
          && AllowedTransition(u.existing.value.state, u.change.state))
    && (u.phase.Done? && u.phase.outcome.Ok? ==>
          && MatchesUpdate(u.phase.outcome.value, u.change)
          && u.commandId in rows
          && Follows(u.phase.outcome.value, rows[u.commandId]))
  }

  ghost predicate OneInserter(puts: map<CallId, Put>) {
    forall a, b ::
      (a in puts && b in puts && puts[a].write == Applied && puts[b].write == Applied) ==>
      puts[a].command.commandId == puts[b].command.commandId ==> a == b
  }

  function Count(log: seq<Uuid>, commandId: Uuid): nat {
    multiset(log)[commandId]
  }

  ghost predicate Counted(s: State) {
    forall c :: Count(s.log, c) <= if c in s.rows then Rank(s.rows[c].state) else 0
  }

  ghost predicate CallsOk(s: State) {
    && (forall id :: id in s.puts ==> PutOk(s.puts[id], s.rows))
    && (forall id :: id in s.updates ==> UpdateOk(s.updates[id], s.rows))
  }

  ghost predicate Inv(s: State) {
    && (forall c :: c in s.rows ==> s.rows[c].commandId == c)
    && CallsOk(s)
    && OneInserter(s.puts)
    && Counted(s)
  }

  // ---------------------------------------------------------------- preservation

  /** Rows that only move forward keep every call's account of what it saw. */
  ghost predicate Forward(before: map<Uuid, Command>, after: map<Uuid, Command>) {
    forall c :: c in before ==> c in after && Follows(before[c], after[c])
  }

  lemma ForwardKeepsPut(put: Put, before: map<Uuid, Command>, after: map<Uuid, Command>)
    requires PutOk(put, before) && Forward(before, after)
    ensures PutOk(put, after)
  {
  }

  lemma ForwardKeepsUpdate(u: Update, before: map<Uuid, Command>, after: map<Uuid, Command>)
    requires UpdateOk(u, before) && Forward(before, after)
    ensures UpdateOk(u, after)
  {
  }

  lemma ForwardKeepsCalls(s: State, rows: map<Uuid, Command>)
    requires CallsOk(s) && Forward(s.rows, rows)
    ensures CallsOk(s.(rows := rows))
  {
    forall id | id in s.puts ensures PutOk(s.puts[id], rows) {
      ForwardKeepsPut(s.puts[id], s.rows, rows);
    }
    forall id | id in s.updates ensures UpdateOk(s.updates[id], rows) {
      ForwardKeepsUpdate(s.updates[id], s.rows, rows);
    }
  }

  lemma FirstInserterIsAlone(s: State, id: CallId)
    requires CallsOk(s) && OneInserter(s.puts) && id in s.puts && s.puts[id].command.commandId !in s.rows
    ensures OneInserter(s.puts[id := s.puts[id].(write := Applied)])
  {
    forall b | b in s.puts && s.puts[b].write == Applied ensures s.puts[b].command.commandId in s.rows {
      assert PutOk(s.puts[b], s.rows);
    }
  }

  lemma InsertingKeepsInv(s: State, id: CallId)
    requires Inv(s) && Enabled(s, EvaluatePut(id))
    ensures Inv(Inserting(s, id))
    ensures Forward(s.rows, Inserting(s, id).rows)
  {
    var put := s.puts[id];
    if put.command.commandId in s.rows {
      PutStepKeepsInv(s, id, put.(write := Rejected));
    } else {
      var rows := s.rows[put.command.commandId := put.command];
      ForwardKeepsCalls(s, rows);
      FirstInserterIsAlone(s, id);
    }
  }

  /** One more update of a command is paid for by the rise of its row. */
  lemma CountOneMore(s: State, rows: map<Uuid, Command>, id: Uuid, change: CommandUpdate)
    requires Counted(s) && id in s.rows && rows == s.rows[id := ApplyUpdate(s.rows[id], change)]
    requires Rank(s.rows[id].state) < Rank(change.state)
    ensures Counted(s.(rows := rows, log := s.log + [id]))
  {
    forall c ensures Count(s.log + [id], c) <= if c in rows then Rank(rows[c].state) else 0 {
      assert Count(s.log + [id], c) == Count(s.log, c) + if c == id then 1 else 0;
    }
  }

  lemma UpdatingKeepsInv(s: State, id: CallId)
    requires Inv(s) && Enabled(s, EvaluateUpdate(id))
    ensures Inv(Updating(s, id))
    ensures Forward(s.rows, Updating(s, id).rows)
  {
    var u := s.updates[id];
    assert UpdateOk(u, s.rows);
    if StateGuard(s, id) {
      TransitionsRaiseRank(u.existing.value.state, u.change.state);
      var rows := s.rows[u.commandId := ApplyUpdate(s.rows[u.commandId], u.change)];
      assert Forward(s.rows, rows);
      ForwardKeepsCalls(s, rows);
      CountOneMore(s, rows, u.commandId, u.change);
    }
  }

  lemma PutStepKeepsInv(s: State, id: CallId, put: Put)
    requires Inv(s) && PutOk(put, s.rows)
    requires put.write == Applied ==> id in s.puts && s.puts[id].write == Applied && put.command == s.puts[id].command
    ensures Inv(SetPut(s, id, put))
  {
    var t := SetPut(s, id, put);
    forall a, b | a in t.puts && b in t.puts && t.puts[a].write == Applied && t.puts[b].write == Applied
                  && t.puts[a].command.commandId == t.puts[b].command.commandId
      ensures a == b
    {
      assert a in s.puts && b in s.puts && s.puts[a].write == Applied && s.puts[b].write == Applied;
    }
  }

  lemma UpdateStepKeepsInv(s: State, id: CallId, u: Update)
    requires Inv(s) && UpdateOk(u, s.rows)
    ensures Inv(SetUpdate(s, id, u))
  {
  }

  lemma PutNextKeepsInv(s: State, a: Action)
    requires Inv(s) && Enabled(s, a) && (a.BeginPut? || a.ReceivePut? || a.ReadBackPut? || a.PutReadFails?)
    ensures Inv(Next(s, a))
  {
    assert a.id in s.puts ==> PutOk(s.puts[a.id], s.rows);
    PutStepKeepsInv(s, a.id, Next(s, a).puts[a.id]);
  }

  lemma UpdateNextKeepsInv(s: State, a: Action)
    requires Inv(s) && Enabled(s, a)
    requires a.BeginUpdate? || a.ReadAndSend? || a.ReceiveUpdate? || a.Verify? || a.UpdateReadFails?
    ensures Inv(Next(s, a))
  {
    assert a.id in s.updates ==> UpdateOk(s.updates[a.id], s.rows);
    UpdateStepKeepsInv(s, a.id, Next(s, a).updates[a.id]);
  }

  lemma NextKeepsInv(s: State, a: Action)
    requires Inv(s) && Enabled(s, a)
    ensures Inv(Next(s, a))
    ensures Forward(s.rows, Next(s, a).rows)
  {
    if a.EvaluatePut? {
      InsertingKeepsInv(s, a.id);
    } else if a.EvaluateUpdate? {
      UpdatingKeepsInv(s, a.id);
    } else if a.BeginPut? || a.ReceivePut? || a.ReadBackPut? || a.PutReadFails? {
      PutNextKeepsInv(s, a);
    } else {
      UpdateNextKeepsInv(s, a);
    }
  }

  lemma StepKeepsInv(s: State, t: State)
    requires Inv(s) && Step(s, t)
    ensures Inv(t) && Forward(s.rows, t.rows)
  {
    var a :| Enabled(s, a) && t == Next(s, a);
    NextKeepsInv(s, a);
  }

  lemma {:induction false} RunKeepsInv(run: seq<State>, i: nat)
    requires IsRun(run) && i < |run|
    ensures Inv(run[i])
  {
    if i > 0 {
      RunKeepsInv(run, i - 1);
      assert StepAt(run, i - 1);
      StepKeepsInv(run[i - 1], run[i]);
    }
  }

  // ---------------------------------------------------------------- what every run keeps

  /**
   Comparing only the state is as strong as comparing the whole row that was read:
   whenever the state still agrees, nothing at all has been written in between.
   */
  lemma StateGuardSeesTheWholeRow(run: seq<State>, i: nat, id: CallId)
    requires IsRun(run) && i < |run|
    requires id in run[i].updates && run[i].updates[id].existing.Some?
    ensures var u := run[i].updates[id];
            StateGuard(run[i], id) <==> (u.commandId in run[i].rows && run[i].rows[u.commandId] == u.existing.value)
  {
    RunKeepsInv(run, i);
    assert UpdateOk(run[i].updates[id], run[i].rows);
  }

  lemma {:induction false} NextRowsRise(run: seq<State>, k: nat)
    requires IsRun(run) && k + 1 < |run|
    ensures Forward(run[k].rows, run[k + 1].rows)
  {
    RunKeepsInv(run, k);
    assert StepAt(run, k);
    StepKeepsInv(run[k], run[k + 1]);
  }

  /** Rows are never removed, keep their identity, and change only by rising in rank. */
  lemma {:induction false} RowsOnlyRise(run: seq<State>, i: nat, j: nat)
    requires IsRun(run) && i <= j < |run|
    ensures Forward(run[i].rows, run[j].rows)
    decreases j - i
  {
    if i < j {
      RowsOnlyRise(run, i, j - 1);
      NextRowsRise(run, j - 1);
      ForwardTransitive(run[i].rows, run[j - 1].rows, run[j].rows);
    }
  }

  lemma ForwardTransitive(a: map<Uuid, Command>, b: map<Uuid, Command>, c: map<Uuid, Command>)
    requires Forward(a, b) && Forward(b, c)
    ensures Forward(a, c)
  {
  }

  lemma TerminalIsNeverRewritten(run: seq<State>, i: nat, j: nat, commandId: Uuid)
    requires IsRun(run) && i <= j < |run|
    requires commandId in run[i].rows && Terminal(run[i].rows[commandId].state)
    ensures commandId in run[j].rows && run[j].rows[commandId] == run[i].rows[commandId]
  {
    RowsOnlyRise(run, i, j);
  }

  lemma AtMostTwoEffectiveUpdates(run: seq<State>, i: nat, commandId: Uuid)
    requires IsRun(run) && i < |run|
    ensures Count(run[i].log, commandId) <= 2
  {
    RunKeepsInv(run, i);
  }

  /**
   An update that answers Ok returns a row that matched it, and the stored row is that row
   or has moved on in rank; a finished outcome stays exactly as it was returned.
   */
  lemma OkMatchedTheUpdate(run: seq<State>, i: nat, j: nat, id: CallId)
    requires IsRun(run) && i <= j < |run|
    requires id in run[i].updates && run[i].updates[id].phase.Done? && run[i].updates[id].phase.outcome.Ok?
    ensures var u := run[i].updates[id];
            var row := u.phase.outcome.value;
            && MatchesUpdate(row, u.change)
            && u.commandId in run[j].rows
            && Follows(row, run[j].rows[u.commandId])
            && (Terminal(u.change.state) ==> run[j].rows[u.commandId] == row)
  {
    RunKeepsInv(run, i);
    RowsOnlyRise(run, i, j);
    assert UpdateOk(run[i].updates[id], run[i].rows);
  }

  /** The row an Ok returns is the stored row of the very step that returned it. */
  lemma OkReturnsTheStoredRow(s: State, a: Action, id: CallId)
    requires Enabled(s, a) && id in s.updates && !s.updates[id].phase.Done?
    requires Next(s, a).updates[id].phase.Done? && Next(s, a).updates[id].phase.outcome.Ok?
    ensures s.updates[id].commandId in s.rows
    ensures Next(s, a).updates[id].phase.outcome.value == s.rows[s.updates[id].commandId]
  {
  }

  /** However often a command is submitted, at most one caller is told Inserted. */
  lemma AtMostOneIsToldInserted(run: seq<State>, i: nat, a: CallId, b: CallId)
    requires IsRun(run) && i < |run| && a in run[i].puts && b in run[i].puts
    requires run[i].puts[a].phase.PutDone? && run[i].puts[a].phase.outcome.Ok?
             && run[i].puts[a].phase.outcome.value.Inserted?
    requires run[i].puts[b].phase.PutDone? && run[i].puts[b].phase.outcome.Ok?
             && run[i].puts[b].phase.outcome.value.Inserted?
    requires run[i].puts[a].command.commandId == run[i].puts[b].command.commandId
    ensures a == b
  {
    RunKeepsInv(run, i);
    assert PutOk(run[i].puts[a], run[i].rows) && PutOk(run[i].puts[b], run[i].rows);
  }

  /**
   Not exactly one: a run in which the only insert ever sent applies, its reply is lost,
   and its caller is told Duplicate of its own command.
   */
  lemma LostReplyReportsDuplicate(command: Command) returns (run: seq<State>)
    requires CommandFault(command).None?
    ensures IsRun(run) && |run| == 5
    ensures run[4].puts == map[0 := Put(command, Applied, PutDone(Ok(Duplicate(command))))]
  {
    var s1 := Next(Initial, BeginPut(0, command));
    var s2 := Next(s1, EvaluatePut(0));
    var s3 := Next(s2, ReceivePut(0, A.SaysNothing));
    var s4 := Next(s3, ReadBackPut(0));
    run := [Initial, s1, s2, s3, s4];
    assert Step(Initial, s1) && Step(s1, s2) && Step(s2, s3) && Step(s3, s4);
    forall i: nat ensures StepAt(run, i) {
      assert i + 1 < |run| ==> i == 0 || i == 1 || i == 2 || i == 3;
    }
  }
}
