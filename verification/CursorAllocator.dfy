/**
 The cursor-block allocator as a protocol over one conditionally written row.

 Any number of calls interleave. A call reads the row, sends a conditional write and waits.
 The store evaluates a sent write atomically, once, at any later moment: even after the call
 that sent it has given up on an error. The reply may say applied, not applied, nothing at
 all, or be an error; after no answer the call reads the row back and looks for its token.
 */
module CursorAllocator {
  import opened Wrappers
  import opened ControlTypes
  import opened Arithmetic

  type CallId = nat

  datatype Row = Row(next: nat, token: Option<Uuid>)

  datatype Guard = IfAbsent | IfNext(expected: nat)

  /** `position` is the place of an applied write in the log, and only records history. */
  datatype Status = Pending | Applied(position: nat) | Rejected

  datatype Attempt = Attempt(guard: Guard, block: CursorBlock)

  datatype Write = Write(call: CallId, attempt: Attempt, status: Status)

  datatype Entry = Entry(token: Uuid, block: CursorBlock)

  datatype Phase =
    | Reading
    | Awaiting(token: Uuid)
    | Settling(token: Uuid)
    | Done(outcome: Result<CursorBlock, ControlError>)

  datatype Call = Call(size: nat, tries: nat, phase: Phase)

  /**
   The row, and the conditional writes sent so far keyed by their reservation token. `log`
   only records history: the applied writes, in order.
   */
  datatype Store = Store(row: Option<Row>, writes: map<Uuid, Write>, log: seq<Entry>)

  /** `claims` also only records history: the token behind each returned block. */
  datatype State = State(store: Store, calls: map<CallId, Call>, claims: map<CallId, Uuid>)

  datatype Reply = SaysApplied | SaysNotApplied | SaysNothing | Fails

  datatype Action =
    | Begin(id: CallId, size: nat)
    | ReadAndSend(id: CallId, token: Uuid)
    | ReadFails(id: CallId)
    | Evaluate(token: Uuid)
    | Receive(id: CallId, reply: Reply)
    | ReadBack(id: CallId)

  const Initial := State(Store(None, map[], []), map[], map[])

  function HighWater(row: Option<Row>): nat {
    if row.None? || row.value.next == 0 then 0 else row.value.next - 1
  }

  function NextCursor(row: Option<Row>): nat {
    if row.None? then 1 else row.value.next
  }

  function BlockOf(store: Store, token: Uuid): CursorBlock
    requires token in store.writes
  {
    store.writes[token].attempt.block
  }

  /** What one round of the retry loop tries to write, given the row it read. */
  function Plan(row: Option<Row>, size: nat): Result<Attempt, ControlError>
    requires ValidBlockSize(size)
  {
    var start := HighWater(row) + 1;
    var end := start + size - 1;
    if end > I64_MAX then Err(CursorSpaceExhausted)
    else if end + 1 > I64_MAX then Err(IntegerOutOfRange)
    else
      var guard := if row.None? then IfAbsent else IfNext(HighWater(row) + 1);
      Ok(Attempt(guard, CursorBlock(start, end)))
  }

  predicate Holds(guard: Guard, row: Option<Row>) {
    match guard
    case IfAbsent => row.None?
    case IfNext(expected) => row.Some? && row.value.next == expected
  }

  predicate Enabled(s: State, a: Action) {
    match a
    case Begin(id, _) => id !in s.calls
    case ReadAndSend(id, token) =>
      id in s.calls && s.calls[id].phase.Reading? && ValidBlockSize(s.calls[id].size) && token !in s.store.writes
    case ReadFails(id) =>
      id in s.calls && (s.calls[id].phase.Reading? || s.calls[id].phase.Settling?)
    case Evaluate(token) => token in s.store.writes && s.store.writes[token].status == Pending
    case Receive(id, reply) =>
      && id in s.calls
      && s.calls[id].phase.Awaiting?
      && s.calls[id].phase.token in s.store.writes
      && (reply == SaysApplied ==> s.store.writes[s.calls[id].phase.token].status.Applied?)
      && (reply == SaysNotApplied ==> s.store.writes[s.calls[id].phase.token].status == Rejected)
    case ReadBack(id) =>
      id in s.calls && s.calls[id].phase.Settling? && s.calls[id].phase.token in s.store.writes
  }

  function SetPhase(s: State, id: CallId, phase: Phase): State
    requires id in s.calls
  {
    s.(calls := s.calls[id := s.calls[id].(phase := phase)])
  }

  /** Another round, or the failure reported once the rounds are used up. */
  function Retry(s: State, id: CallId): State
    requires id in s.calls
  {
    SetPhase(s, id, if s.calls[id].tries < ALLOCATION_ATTEMPTS then Reading else Done(Err(Contended)))
  }

  function Claim(s: State, id: CallId, token: Uuid): State
    requires id in s.calls && token in s.store.writes
  {
    SetPhase(s, id, Done(Ok(BlockOf(s.store, token)))).(claims := s.claims[id := token])
  }

  function Send(s: State, id: CallId, token: Uuid): State
    requires id in s.calls && ValidBlockSize(s.calls[id].size)
  {
    var call := s.calls[id];
    match Plan(s.store.row, call.size)
    case Err(error) => SetPhase(s, id, Done(Err(error)))
    case Ok(attempt) =>
      s.(calls := s.calls[id := call.(tries := call.tries + 1, phase := Awaiting(token))],
         store := s.store.(writes := s.store.writes[token := Write(id, attempt, Pending)]))
  }

  function EvaluateWrite(store: Store, token: Uuid): Store
    requires token in store.writes
  {
    var write := store.writes[token];
    if Holds(write.attempt.guard, store.row) then
      Store(Some(Row(write.attempt.block.end + 1, Some(token))),
            store.writes[token := write.(status := Applied(|store.log|))],
            store.log + [Entry(token, write.attempt.block)])
    else
      store.(writes := store.writes[token := write.(status := Rejected)])
  }

  /** The row proves the write landed only when it carries both our end and our token. */
  predicate ProvesOurs(store: Store, token: Uuid)
    requires token in store.writes
  {
    && store.row.Some?
    && HighWater(store.row) == BlockOf(store, token).end
    && store.row.value.token == Some(token)
  }

  function Next(s: State, a: Action): State
    requires Enabled(s, a)
  {
    match a
    case Begin(id, size) =>
      var phase := if ValidBlockSize(size) then Reading else Done(Err(InvalidBlockSize));
      s.(calls := s.calls[id := Call(size, 0, phase)])
    case ReadAndSend(id, token) => Send(s, id, token)
    case ReadFails(id) => SetPhase(s, id, Done(Err(StoreFailure)))
    case Evaluate(token) => s.(store := EvaluateWrite(s.store, token))
    case Receive(id, reply) =>
      var token := s.calls[id].phase.token;
      (match reply
       case SaysApplied => Claim(s, id, token)
       case SaysNotApplied => Retry(s, id)
       case SaysNothing => SetPhase(s, id, Settling(token))
       case Fails => SetPhase(s, id, Done(Err(StoreFailure))))
    case ReadBack(id) =>
      var token := s.calls[id].phase.token;
      if ProvesOurs(s.store, token) then Claim(s, id, token) else Retry(s, id)
  }

  ghost predicate Step(s: State, t: State) {
    exists a :: Enabled(s, a) && t == Next(s, a)
  }

  ghost predicate StepAt(run: seq<State>, i: nat) {
    i + 1 < |run| ==> Step(run[i], run[i + 1])
  }

  /** Every interleaving of any number of calls, replies and evaluations. */
  ghost predicate IsRun(run: seq<State>) {
    && run != []
    && run[0] == Initial
    && forall i :: StepAt(run, i)
  }

  // ---------------------------------------------------------------- invariant

  /** The applied blocks lie end to end from cursor 1, and the row carries the last one. */
  ghost predicate Tiled(row: Option<Row>, log: seq<Entry>) {
    && (log != [] ==> log[0].block.start == 1)
    && (forall i, j :: 0 <= i < j < |log| && j == i + 1 ==> log[j].block.start == log[i].block.end + 1)
    && row == if log == [] then None else Some(Row(log[|log| - 1].block.end + 1, Some(log[|log| - 1].token)))
  }

  /** The log holds the applied writes, each at its own position, and nothing else. */
  ghost predicate Logged(writes: map<Uuid, Write>, log: seq<Entry>) {
    && (forall i :: 0 <= i < |log| ==>
          && log[i].token in writes
          && writes[log[i].token].status == Applied(i)
          && writes[log[i].token].attempt.block == log[i].block)
    && (forall t :: t in writes && writes[t].status.Applied? ==>
          writes[t].status.position < |log| && log[writes[t].status.position].token == t)
  }

  predicate AttemptOk(attempt: Attempt) {
    && 1 <= attempt.block.start <= attempt.block.end < I64_MAX
    && match attempt.guard
       case IfAbsent => attempt.block.start == 1
       case IfNext(expected) => attempt.block.start == expected
  }

  ghost predicate StoreInv(store: Store) {
    && Tiled(store.row, store.log)
    && Logged(store.writes, store.log)
    && forall t :: t in store.writes ==> AttemptOk(store.writes[t].attempt)
  }

  ghost predicate Sized(s: State) {
    forall t :: t in s.store.writes ==>
      && s.store.writes[t].call in s.calls
      && BlockOf(s.store, t).end + 1 - BlockOf(s.store, t).start == s.calls[s.store.writes[t].call].size
  }

  ghost predicate CallOk(store: Store, claims: map<CallId, Uuid>, id: CallId, call: Call) {
    && call.tries <= ALLOCATION_ATTEMPTS
    && (!call.phase.Done? ==> ValidBlockSize(call.size))
    && (call.phase.Reading? ==> call.tries < ALLOCATION_ATTEMPTS)
    && (call.phase.Awaiting? || call.phase.Settling? ==>
          call.phase.token in store.writes && store.writes[call.phase.token].call == id)
    && (call.phase.Done? && call.phase.outcome.Ok? <==> id in claims)
    && (id in claims ==>
          && claims[id] in store.writes
          && store.writes[claims[id]].status.Applied?
          && store.writes[claims[id]].call == id
          && call.phase.outcome == Ok(BlockOf(store, claims[id])))
  }

  ghost predicate CallsOk(s: State) {
    && s.claims.Keys <= s.calls.Keys
    && forall id :: id in s.calls ==> CallOk(s.store, s.claims, id, s.calls[id])
  }

  ghost function WritesOf(store: Store, id: CallId): set<Uuid> {
    set t | t in store.writes && store.writes[t].call == id
  }

  ghost predicate Counted(s: State) {
    forall id :: id in s.calls ==> |WritesOf(s.store, id)| == s.calls[id].tries
  }

  ghost predicate Inv(s: State) {
    StoreInv(s.store) && Sized(s) && CallsOk(s) && Counted(s)
  }

  // ---------------------------------------------------------------- preservation

  /** The guard pins the start of the next tile to the end of the last one. */
  lemma ApplyKeepsTiled(row: Option<Row>, log: seq<Entry>, token: Uuid, attempt: Attempt)
    requires Tiled(row, log) && AttemptOk(attempt) && Holds(attempt.guard, row)
    ensures Tiled(Some(Row(attempt.block.end + 1, Some(token))), log + [Entry(token, attempt.block)])
  {
  }

  lemma ApplyKeepsLogged(writes: map<Uuid, Write>, log: seq<Entry>, token: Uuid)
    requires Logged(writes, log) && token in writes && writes[token].status == Pending
    ensures Logged(writes[token := writes[token].(status := Applied(|log|))],
                   log + [Entry(token, writes[token].attempt.block)])
  {
  }

  lemma RejectKeepsLogged(writes: map<Uuid, Write>, log: seq<Entry>, token: Uuid)
    requires Logged(writes, log) && token in writes && writes[token].status == Pending
    ensures Logged(writes[token := writes[token].(status := Rejected)], log)
  {
  }

  lemma ApplyKeepsStoreInv(store: Store, token: Uuid)
    requires StoreInv(store) && token in store.writes && store.writes[token].status == Pending
    requires Holds(store.writes[token].attempt.guard, store.row)
    ensures StoreInv(EvaluateWrite(store, token))
  {
    ApplyKeepsTiled(store.row, store.log, token, store.writes[token].attempt);
    ApplyKeepsLogged(store.writes, store.log, token);
  }

  lemma EvaluateKeepsStoreInv(store: Store, token: Uuid)
    requires StoreInv(store) && token in store.writes && store.writes[token].status == Pending
    ensures StoreInv(EvaluateWrite(store, token))
  {
    if Holds(store.writes[token].attempt.guard, store.row) {
      ApplyKeepsStoreInv(store, token);
    } else {
      RejectKeepsLogged(store.writes, store.log, token);
    }
  }

  lemma EvaluateKeepsCalls(s: State, token: Uuid)
    requires Inv(s) && Enabled(s, Evaluate(token))
    ensures CallsOk(s.(store := EvaluateWrite(s.store, token)))
  {
    var t := s.(store := EvaluateWrite(s.store, token));
    forall id | id in t.calls ensures CallOk(t.store, t.claims, id, t.calls[id]) {
      assert CallOk(s.store, s.claims, id, s.calls[id]);
    }
  }

  lemma EvaluateKeepsCount(s: State, token: Uuid)
    requires Sized(s) && Counted(s) && Enabled(s, Evaluate(token))
    ensures Sized(s.(store := EvaluateWrite(s.store, token)))
    ensures Counted(s.(store := EvaluateWrite(s.store, token)))
  {
    forall id | id in s.calls ensures |WritesOf(EvaluateWrite(s.store, token), id)| == s.calls[id].tries {
      assert WritesOf(EvaluateWrite(s.store, token), id) == WritesOf(s.store, id);
    }
  }

  lemma SendKeepsStoreInv(store: Store, token: Uuid, write: Write)
    requires StoreInv(store) && token !in store.writes && AttemptOk(write.attempt) && write.status == Pending
    ensures StoreInv(store.(writes := store.writes[token := write]))
  {
  }

  lemma SendAddsAWrite(s: State, id: CallId, token: Uuid)
    requires Enabled(s, ReadAndSend(id, token)) && Plan(s.store.row, s.calls[id].size).Ok?
    ensures var t := Send(s, id, token);
            && WritesOf(t.store, id) == WritesOf(s.store, id) + {token} && token !in WritesOf(s.store, id)
            && (forall other :: other != id ==> WritesOf(t.store, other) == WritesOf(s.store, other))
  {
  }

  lemma SendKeepsSized(s: State, id: CallId, token: Uuid)
    requires Sized(s) && Enabled(s, ReadAndSend(id, token))
    ensures Sized(Send(s, id, token))
  {
  }

  lemma SendKeepsCounted(s: State, id: CallId, token: Uuid)
    requires Counted(s) && Enabled(s, ReadAndSend(id, token))
    ensures Counted(Send(s, id, token))
  {
    if Plan(s.store.row, s.calls[id].size).Ok? {
      SendAddsAWrite(s, id, token);
    }
  }

  lemma SendKeepsCount(s: State, id: CallId, token: Uuid)
    requires Sized(s) && Counted(s) && Enabled(s, ReadAndSend(id, token))
    ensures Sized(Send(s, id, token)) && Counted(Send(s, id, token))
  {
    SendKeepsSized(s, id, token);
    SendKeepsCounted(s, id, token);
  }

  lemma SendKeepsCalls(s: State, id: CallId, token: Uuid)
    requires CallsOk(s) && Enabled(s, ReadAndSend(id, token))
    ensures CallsOk(Send(s, id, token))
  {
    var t := Send(s, id, token);
    forall other | other in t.calls ensures CallOk(t.store, t.claims, other, t.calls[other]) {
      assert CallOk(s.store, s.claims, other, s.calls[other]);
    }
  }

  lemma BeginKeepsInv(s: State, id: CallId, size: nat)
    requires Inv(s) && Enabled(s, Begin(id, size))
    ensures Inv(Next(s, Begin(id, size)))
  {
    assert WritesOf(s.store, id) == {};
  }

  /** A step that only moves a call to a new phase, perhaps claiming a block on the way. */
  lemma PhaseKeepsInv(s: State, id: CallId, phase: Phase, claims: map<CallId, Uuid>)
    requires Inv(s) && id in s.calls
    requires forall other :: other in s.claims || other in claims ==>
               other == id || (other in s.claims && other in claims && claims[other] == s.claims[other])
    requires CallOk(s.store, claims, id, s.calls[id].(phase := phase))
    ensures Inv(SetPhase(s, id, phase).(claims := claims))
  {
    var t := SetPhase(s, id, phase).(claims := claims);
    forall other | other in t.calls ensures CallOk(t.store, t.claims, other, t.calls[other]) {
      assert CallOk(s.store, s.claims, other, s.calls[other]);
    }
  }

  lemma ReplyKeepsInv(s: State, id: CallId, reply: Reply)
    requires Inv(s) && Enabled(s, Receive(id, reply))
    ensures Inv(Next(s, Receive(id, reply)))
  {
    var t := Next(s, Receive(id, reply));
    assert CallOk(s.store, s.claims, id, s.calls[id]);
    PhaseKeepsInv(s, id, t.calls[id].phase, t.claims);
  }

  lemma ReadBackKeepsInv(s: State, id: CallId)
    requires Inv(s) && Enabled(s, ReadBack(id))
    ensures Inv(Next(s, ReadBack(id)))
  {
    var t := Next(s, ReadBack(id));
    assert CallOk(s.store, s.claims, id, s.calls[id]);
    if ProvesOurs(s.store, s.calls[id].phase.token) {
      assert s.store.log[|s.store.log| - 1] in s.store.log;
    }
    PhaseKeepsInv(s, id, t.calls[id].phase, t.claims);
  }

  lemma NextKeepsInv(s: State, a: Action)
    requires Inv(s) && Enabled(s, a)
    ensures Inv(Next(s, a))
  {
    match a
    case Begin(id, size) =>
      BeginKeepsInv(s, id, size);
    case ReadAndSend(id, token) =>
      SendKeepsCount(s, id, token);
      SendKeepsCalls(s, id, token);
      if Plan(s.store.row, s.calls[id].size).Ok? {
        SendKeepsStoreInv(s.store, token, Next(s, a).store.writes[token]);
      }
    case Evaluate(token) =>
      EvaluateKeepsStoreInv(s.store, token);
      EvaluateKeepsCalls(s, token);
      EvaluateKeepsCount(s, token);
    case ReadFails(id) =>
      assert CallOk(s.store, s.claims, id, s.calls[id]);
      PhaseKeepsInv(s, id, Done(Err(StoreFailure)), s.claims);
    case Receive(id, reply) =>
      ReplyKeepsInv(s, id, reply);
    case ReadBack(id) =>
      ReadBackKeepsInv(s, id);
  }

  lemma InitialInv()
    ensures Inv(Initial)
  {
  }

  lemma {:induction false} RunKeepsInv(run: seq<State>, i: nat)
    requires IsRun(run) && i < |run|
    ensures Inv(run[i])
  {
    if i == 0 {
      InitialInv();
    } else {
      RunKeepsInv(run, i - 1);
      assert StepAt(run, i - 1);
      var a :| Enabled(run[i - 1], a) && run[i] == Next(run[i - 1], a);
      NextKeepsInv(run[i - 1], a);
    }
  }

  // ---------------------------------------------------------------- what every run keeps

  predicate Disjoint(a: CursorBlock, b: CursorBlock) {
    a.end < b.start || b.end < a.start
  }

  lemma {:induction false} TilesAscend(store: Store, i: nat, j: nat)
    requires StoreInv(store) && i < j < |store.log|
    ensures store.log[i].block.end < store.log[j].block.start
    decreases j
  {
    var log := store.log;
    assert AttemptOk(store.writes[log[j - 1].token].attempt);
    if i < j - 1 {
      TilesAscend(store, i, j - 1);
    }
  }

  lemma AppliedWritesAreDisjoint(store: Store, s: Uuid, t: Uuid)
    requires StoreInv(store) && s in store.writes && t in store.writes && s != t
    requires store.writes[s].status.Applied? && store.writes[t].status.Applied?
    ensures Disjoint(BlockOf(store, s), BlockOf(store, t))
  {
    var p := store.writes[s].status.position;
    var q := store.writes[t].status.position;
    if p < q {
      TilesAscend(store, p, q);
    } else {
      TilesAscend(store, q, p);
    }
  }

  /** No two calls are ever handed a common cursor, whatever the store answered them. */
  lemma ReturnedBlocksAreDisjoint(run: seq<State>, i: nat, a: CallId, b: CallId)
    requires IsRun(run) && i < |run| && a != b
    requires a in run[i].calls && run[i].calls[a].phase.Done? && run[i].calls[a].phase.outcome.Ok?
    requires b in run[i].calls && run[i].calls[b].phase.Done? && run[i].calls[b].phase.outcome.Ok?
    ensures Disjoint(run[i].calls[a].phase.outcome.value, run[i].calls[b].phase.outcome.value)
  {
    RunKeepsInv(run, i);
    var s := run[i];
    assert CallOk(s.store, s.claims, a, s.calls[a]) && CallOk(s.store, s.claims, b, s.calls[b]);
    AppliedWritesAreDisjoint(s.store, s.claims[a], s.claims[b]);
  }

  /** A returned block has the size that was asked for and is one of the applied blocks. */
  lemma ReturnedBlockWasApplied(run: seq<State>, i: nat, id: CallId) returns (k: nat)
    requires IsRun(run) && i < |run|
    requires id in run[i].calls && run[i].calls[id].phase.Done? && run[i].calls[id].phase.outcome.Ok?
    ensures k < |run[i].store.log| && run[i].calls[id].phase.outcome.value == run[i].store.log[k].block
    ensures run[i].store.log[k].block.end + 1 - run[i].store.log[k].block.start == run[i].calls[id].size
  {
    RunKeepsInv(run, i);
    assert CallOk(run[i].store, run[i].claims, id, run[i].calls[id]);
    k := run[i].store.writes[run[i].claims[id]].status.position;
  }

  predicate Owns(log: seq<Entry>, k: nat, cursor: nat) {
    k < |log| && log[k].block.start <= cursor <= log[k].block.end
  }

  lemma {:induction false} FindOwner(store: Store, n: nat, cursor: nat) returns (k: nat)
    requires StoreInv(store) && 0 < n <= |store.log|
    requires 1 <= cursor <= store.log[n - 1].block.end
    ensures Owns(store.log, k, cursor)
    decreases n
  {
    if store.log[n - 1].block.start <= cursor {
      k := n - 1;
    } else {
      k := FindOwner(store, n - 1, cursor);
    }
  }

  lemma OwnerIsBelowNext(store: Store, k: nat, cursor: nat)
    requires StoreInv(store) && Owns(store.log, k, cursor)
    ensures 1 <= cursor < NextCursor(store.row)
  {
    var last := |store.log| - 1;
    assert AttemptOk(store.writes[store.log[k].token].attempt);
    assert AttemptOk(store.writes[store.log[last].token].attempt);
    if k < last {
      TilesAscend(store, k, last);
    }
  }

  lemma OwnerIsUnique(store: Store, k: nat, l: nat, cursor: nat)
    requires StoreInv(store) && Owns(store.log, k, cursor) && Owns(store.log, l, cursor)
    ensures k == l
  {
    if k < l {
      TilesAscend(store, k, l);
    } else if l < k {
      TilesAscend(store, l, k);
    }
  }

  /** The applied blocks tile [1, next_cursor): no gap, no overlap, nothing outside. */
  lemma AppliedBlocksTile(run: seq<State>, i: nat, cursor: nat)
    requires IsRun(run) && i < |run|
    ensures 1 <= cursor < NextCursor(run[i].store.row) <==> exists k :: Owns(run[i].store.log, k, cursor)
    ensures forall k, l :: Owns(run[i].store.log, k, cursor) && Owns(run[i].store.log, l, cursor) ==> k == l
  {
    RunKeepsInv(run, i);
    var store := run[i].store;
    if 1 <= cursor < NextCursor(store.row) {
      var k := FindOwner(store, |store.log|, cursor);
    }
    forall k: nat, l: nat | Owns(store.log, k, cursor) && Owns(store.log, l, cursor) ensures k == l {
      OwnerIsUnique(store, k, l, cursor);
    }
    if k: nat :| Owns(store.log, k, cursor) {
      OwnerIsBelowNext(store, k, cursor);
    }
  }

  ghost predicate StoreAdvances(s: Store, t: Store) {
    && s.log <= t.log
    && NextCursor(s.row) <= NextCursor(t.row)
    && (NextCursor(s.row) == NextCursor(t.row) ==> s.row == t.row && s.log == t.log)
  }

  ghost predicate OutcomesKept(s: State, t: State) {
    forall id :: id in s.calls && s.calls[id].phase.Done? ==> id in t.calls && t.calls[id] == s.calls[id]
  }

  lemma EvaluateAdvances(store: Store, token: Uuid)
    requires token in store.writes && AttemptOk(store.writes[token].attempt)
    ensures StoreAdvances(store, EvaluateWrite(store, token))
  {
  }

  lemma StepAdvances(s: State, t: State)
    requires (forall u :: u in s.store.writes ==> AttemptOk(s.store.writes[u].attempt)) && Step(s, t)
    ensures StoreAdvances(s.store, t.store) && OutcomesKept(s, t)
  {
    var a :| Enabled(s, a) && t == Next(s, a);
    if a.Evaluate? {
      EvaluateAdvances(s.store, a.token);
    }
  }

  lemma AdvancesTransitive(r: State, s: State, t: State)
    requires StoreAdvances(r.store, s.store) && StoreAdvances(s.store, t.store)
    requires OutcomesKept(r, s) && OutcomesKept(s, t)
    ensures StoreAdvances(r.store, t.store) && OutcomesKept(r, t)
  {
  }

  lemma RunAdvancesOnce(run: seq<State>, i: nat)
    requires IsRun(run) && i + 1 < |run|
    ensures StoreAdvances(run[i].store, run[i + 1].store) && OutcomesKept(run[i], run[i + 1])
  {
    RunKeepsInv(run, i);
    assert StepAt(run, i);
    StepAdvances(run[i], run[i + 1]);
  }

  /**
   `next_cursor` never falls and the log only grows, so a row that shows the same
   `next_cursor` twice was not written in between: comparing that column alone is enough.
   A finished call keeps its outcome.
   */
  lemma {:induction false} NextCursorNeverFalls(run: seq<State>, i: nat, j: nat)
    requires IsRun(run) && i <= j < |run|
    ensures StoreAdvances(run[i].store, run[j].store) && OutcomesKept(run[i], run[j])
    decreases j - i
  {
    if i < j {
      NextCursorNeverFalls(run, i, j - 1);
      RunAdvancesOnce(run, j - 1);
      AdvancesTransitive(run[i], run[j - 1], run[j]);
    }
  }

  /** The call that sent `token` no longer waits on it and did not return its block. */
  ghost predicate Abandoned(s: State, token: Uuid) {
    && token in s.store.writes
    && s.store.writes[token].call in s.calls
    && var id := s.store.writes[token].call;
       && s.calls[id].phase != Awaiting(token)
       && s.calls[id].phase != Settling(token)
       && (id in s.claims ==> s.claims[id] != token)
  }

  lemma NextKeepsAbandoned(s: State, a: Action, token: Uuid)
    requires Enabled(s, a) && Abandoned(s, token)
    ensures Abandoned(Next(s, a), token)
  {
  }

  lemma {:induction false} StaysAbandoned(run: seq<State>, i: nat, j: nat, token: Uuid)
    requires IsRun(run) && i <= j < |run| && Abandoned(run[i], token)
    ensures Abandoned(run[j], token)
    decreases j - i
  {
    if i < j {
      StaysAbandoned(run, i, j - 1, token);
      assert StepAt(run, j - 1);
      var a :| Enabled(run[j - 1], a) && run[j] == Next(run[j - 1], a);
      NextKeepsAbandoned(run[j - 1], a, token);
    }
  }

  /** A block that was applied and then abandoned is never handed to anyone. */
  lemma AbandonedBlockIsNeverReturned(run: seq<State>, i: nat, j: nat, token: Uuid, id: CallId)
    requires IsRun(run) && i <= j < |run| && Abandoned(run[i], token)
    requires id in run[j].calls && run[j].calls[id].phase.Done? && run[j].calls[id].phase.outcome.Ok?
    requires token in run[j].store.writes && run[j].store.writes[token].status.Applied?
    ensures Disjoint(run[j].calls[id].phase.outcome.value, BlockOf(run[j].store, token))
  {
    StaysAbandoned(run, i, j, token);
    RunKeepsInv(run, j);
    var s := run[j];
    assert CallOk(s.store, s.claims, id, s.calls[id]);
    AppliedWritesAreDisjoint(s.store, s.claims[id], token);
  }

  /** How far the first `n` applied writes of call `id` moved the row. */
  ghost function Advance(store: Store, id: CallId, n: nat): int
    requires Logged(store.writes, store.log) && n <= |store.log|
  {
    if n == 0 then 0
    else
      var width := store.log[n - 1].block.end + 1 - store.log[n - 1].block.start;
      Advance(store, id, n - 1) + if store.writes[store.log[n - 1].token].call == id then width else 0
  }

  /** The first `n` applied writes of call `id`. */
  ghost function AppliedBy(store: Store, id: CallId, n: nat): set<Uuid> {
    set t | t in store.writes && store.writes[t].call == id
            && store.writes[t].status.Applied? && store.writes[t].status.position < n
  }

  /** A write joins the applied ones when the log reaches its entry. */
  lemma AppliedByMember(store: Store, id: CallId, n: nat, t: Uuid)
    requires Logged(store.writes, store.log) && n < |store.log|
    ensures t in AppliedBy(store, id, n + 1) <==>
            t in AppliedBy(store, id, n) || (t == store.log[n].token && store.writes[t].call == id)
  {
    assert store.writes[store.log[n].token].status == Applied(n);
    if t in store.writes && store.writes[t].status == Applied(n) {
      assert store.log[store.writes[t].status.position].token == t;
    }
  }

  lemma AppliedByGrows(store: Store, id: CallId, n: nat)
    requires Logged(store.writes, store.log) && n < |store.log|
    ensures var token := store.log[n].token;
            |AppliedBy(store, id, n + 1)| ==
            |AppliedBy(store, id, n)| + if store.writes[token].call == id then 1 else 0
  {
    var token := store.log[n].token;
    var before, after := AppliedBy(store, id, n), AppliedBy(store, id, n + 1);
    assert token !in before by {
      assert store.writes[token].status == Applied(n);
    }
    forall t ensures t in after <==> t in before || (t == token && store.writes[t].call == id) {
      AppliedByMember(store, id, n, t);
    }
    GrownByOne(before, after, token, store.writes[token].call == id);
  }

  lemma GrownByOne(before: set<Uuid>, after: set<Uuid>, token: Uuid, joins: bool)
    requires token !in before && (forall t :: t in after <==> t in before || (t == token && joins))
    ensures |after| == |before| + if joins then 1 else 0
  {
    assert after == if joins then before + {token} else before;
  }

  lemma {:induction false} AdvanceCounts(store: Store, id: CallId, size: nat, n: nat)
    requires Logged(store.writes, store.log) && n <= |store.log|
    requires forall t :: t in store.writes && store.writes[t].call == id ==>
               BlockOf(store, t).end + 1 - BlockOf(store, t).start == size
    ensures Advance(store, id, n) == |AppliedBy(store, id, n)| * size
  {
    if n == 0 {
      assert AppliedBy(store, id, n) == {};
    } else {
      AdvanceCounts(store, id, size, n - 1);
      AppliedByGrows(store, id, n - 1);
      var before := |AppliedBy(store, id, n - 1)|;
      assert (before + 1) * size == before * size + size;
      assert BlockOf(store, store.log[n - 1].token) == store.log[n - 1].block;
    }
  }

  lemma SubsetSize<T>(small: set<T>, large: set<T>)
    requires small <= large
    ensures |small| <= |large|
  {
    assert large == small + (large - small);
  }

  lemma AdvanceIsBounded(s: State, id: CallId)
    requires Logged(s.store.writes, s.store.log) && Sized(s) && Counted(s) && id in s.calls
    ensures Advance(s.store, id, |s.store.log|) <= s.calls[id].tries * s.calls[id].size
  {
    var n := |s.store.log|;
    AdvanceCounts(s.store, id, s.calls[id].size, n);
    SubsetSize(AppliedBy(s.store, id, n), WritesOf(s.store, id));
    MultiplyMonotone(|AppliedBy(s.store, id, n)|, s.calls[id].tries, s.calls[id].size);
  }

  /** One call moves the row by at most 32 times its size, counting writes it abandoned. */
  lemma OneCallAdvancesAtMost32Blocks(run: seq<State>, i: nat, id: CallId)
    requires IsRun(run) && i < |run| && id in run[i].calls
    ensures Logged(run[i].store.writes, run[i].store.log)
    ensures Advance(run[i].store, id, |run[i].store.log|) <= ALLOCATION_ATTEMPTS * run[i].calls[id].size
  {
    RunKeepsInv(run, i);
    AdvanceIsBounded(run[i], id);
    assert CallOk(run[i].store, run[i].claims, id, run[i].calls[id]);
    MultiplyMonotone(run[i].calls[id].tries, ALLOCATION_ATTEMPTS, run[i].calls[id].size);
  }

  /** The blocks a single in-memory allocator hands out for these sizes, one after another. */
  function MemoryBlocks(next: nat, sizes: seq<nat>): seq<CursorBlock>
    decreases |sizes|
  {
    if sizes == [] || !ValidBlockSize(sizes[0]) then []
    else
      match Reserve(next, sizes[0])
      case Err(_) => []
      case Ok(block) => [block] + MemoryBlocks(block.end + 1, sizes[1..])
  }

  ghost predicate Chained(next: nat, log: seq<Entry>, sizes: seq<nat>) {
    && |log| == |sizes|
    && (log != [] ==> log[0].block.start == next)
    && (forall i, j :: 0 <= i < j < |log| && j == i + 1 ==> log[j].block.start == log[i].block.end + 1)
    && (forall i :: 0 <= i < |log| ==>
          ValidBlockSize(sizes[i]) && log[i].block.end == log[i].block.start + sizes[i] - 1 < I64_MAX)
  }

  lemma {:induction false} ChainIsMemoryBlocks(next: nat, log: seq<Entry>, sizes: seq<nat>)
    requires Chained(next, log, sizes)
    ensures |MemoryBlocks(next, sizes)| == |log|
    ensures forall k :: 0 <= k < |log| ==> MemoryBlocks(next, sizes)[k] == log[k].block
    decreases |log|
  {
    if log != [] {
      ChainIsMemoryBlocks(log[0].block.end + 1, log[1..], sizes[1..]);
    }
  }

  /**
   Linearisation: the applied writes of every run, in order, are exactly what the
   in-memory allocator answers when it is asked for the same sizes in that order.
   */
  lemma AppliedWritesLinearize(run: seq<State>, i: nat, sizes: seq<nat>)
    requires IsRun(run) && i < |run| && |sizes| == |run[i].store.log|
    requires forall k :: 0 <= k < |sizes| ==>
               ValidBlockSize(sizes[k])
               && run[i].store.log[k].block.end == run[i].store.log[k].block.start + sizes[k] - 1
    ensures |MemoryBlocks(1, sizes)| == |run[i].store.log|
    ensures forall k :: 0 <= k < |sizes| ==> MemoryBlocks(1, sizes)[k] == run[i].store.log[k].block
  {
    var store := run[i].store;
    assert Chained(1, store.log, sizes) by {
      RunKeepsInv(run, i);
      forall k | 0 <= k < |sizes| ensures store.log[k].block.end < I64_MAX {
        assert AttemptOk(store.writes[store.log[k].token].attempt);
      }
    }
    ChainIsMemoryBlocks(1, store.log, sizes);
  }

  // ---------------------------------------------------------------- two runs

  lemma ExtendRun(run: seq<State>, a: Action) returns (longer: seq<State>)
    requires IsRun(run) && Enabled(run[|run| - 1], a)
    ensures IsRun(longer) && longer == run + [Next(run[|run| - 1], a)]
  {
    longer := run + [Next(run[|run| - 1], a)];
    assert Step(run[|run| - 1], Next(run[|run| - 1], a));
    forall i: nat ensures StepAt(longer, i) {
      assert StepAt(run, i);
    }
  }

  /** A call whose write applied and whose reply was lost still gets its block. */
  lemma LostReplyIsSettled(size: nat) returns (run: seq<State>)
    requires ValidBlockSize(size)
    ensures IsRun(run)
    ensures run[|run| - 1].calls == map[0 := Call(size, 1, Done(Ok(CursorBlock(1, size))))]
  {
    run := [Initial];
    run := ExtendRun(run, Begin(0, size));
    run := ExtendRun(run, ReadAndSend(0, 0));
    run := ExtendRun(run, Evaluate(0));
    run := ExtendRun(run, Receive(0, SaysNothing));
    run := ExtendRun(run, ReadBack(0));
  }

  /**
   A call whose token was overwritten before it could read it back abandons an applied block:
   cursors 1 to `size` are behind the row and belong to nobody.
   */
  lemma OverwrittenTokenAbandonsABlock(size: nat) returns (run: seq<State>)
    requires ValidBlockSize(size)
    ensures IsRun(run)
    ensures var s := run[|run| - 1];
            && Abandoned(s, 0) && s.store.writes[0].status == Applied(0)
            && BlockOf(s.store, 0) == CursorBlock(1, size) && NextCursor(s.store.row) == 2 * size + 1
  {
    run := [Initial];
    run := ExtendRun(run, Begin(0, size));
    run := ExtendRun(run, ReadAndSend(0, 0));
    run := ExtendRun(run, Evaluate(0));
    run := ExtendRun(run, Receive(0, SaysNothing));
    run := ExtendRun(run, Begin(1, size));
    run := ExtendRun(run, ReadAndSend(1, 1));
    run := ExtendRun(run, Evaluate(1));
    run := ExtendRun(run, ReadBack(0));
  }

  // ---------------------------------------------------------------- a row at zero

  /** On a quiet row a round's write applies exactly when the row is absent or at least 1. */
  lemma QuietRoundAppliesIff(row: Option<Row>, size: nat)
    requires ValidBlockSize(size) && Plan(row, size).Ok?
    ensures Holds(Plan(row, size).value.guard, row) <==> row.None? || row.value.next >= 1
  {
  }

  ghost predicate StuckAtZero(s: State, token: Option<Uuid>) {
    && s.store.row == Some(Row(0, token))
    && (forall t :: t in s.store.writes ==>
          && s.store.writes[t].attempt.guard == IfNext(1) && s.store.writes[t].attempt.block.end >= 1
          && !s.store.writes[t].status.Applied?)
    && (forall id :: id in s.calls && s.calls[id].phase.Done? ==> s.calls[id].phase.outcome.Err?)
  }

  /** A row at 0 is never written again, and no call is ever served from it, whatever token it carries. */
  lemma {:induction false} RowAtZeroNeverServes(run: seq<State>, i: nat, token: Option<Uuid>)
    requires i < |run| && run[0] == Initial.(store := Store(Some(Row(0, token)), map[], []))
    requires forall k :: StepAt(run, k)
    ensures run[i].store.row == Some(Row(0, token))
    ensures forall id :: id in run[i].calls && run[i].calls[id].phase.Done? ==> run[i].calls[id].phase.outcome.Err?
    ensures StuckAtZero(run[i], token)
  {
    if i > 0 {
      RowAtZeroNeverServes(run, i - 1, token);
      var s := run[i - 1];
      assert StepAt(run, i - 1);
      var a :| Enabled(s, a) && run[i] == Next(s, a);
      StepStaysAtZero(s, a, token);
    }
  }

  lemma StepStaysAtZero(s: State, a: Action, token: Option<Uuid>)
    requires Enabled(s, a) && StuckAtZero(s, token)
    ensures StuckAtZero(Next(s, a), token)
  {
  }

  // ---------------------------------------------------------------- the last cursor

  /**
   The two allocators agree except on the block that would end at the last cursor: the CQL one
   refuses exactly that block, the in-memory one hands it out.
   */
  lemma PlanAgreesUpToTheLastCursor(row: Option<Row>, size: nat)
    requires ValidBlockSize(size)
    ensures var plan, memory := Plan(row, size), Reserve(HighWater(row) + 1, size);
            && (plan.Ok? <==> memory.Ok? && HighWater(row) + size < I64_MAX)
            && (plan.Ok? ==> plan.value.block == memory.value)
            && (memory.Ok? && plan.Err? <==> HighWater(row) + size == I64_MAX)
  {
  }

  /** A row one short of the end, and one cursor asked for. */
  lemma LastCursorIsServedByMemoryOnly()
    ensures var row := Some(Row(I64_MAX, None));
            && Plan(row, 1) == Err(IntegerOutOfRange)
            && Reserve(HighWater(row) + 1, 1) == Ok(CursorBlock(I64_MAX, I64_MAX))
  {
  }
}
