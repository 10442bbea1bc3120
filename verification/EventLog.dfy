/** The execution tables of the store (src/store.rs): one row per execution with its event log.
    The store actor serialises its commands, so each command is one atomic step. */
module EventLog {
  import opened Model

  datatype CaptureRecord =
    | OutputRecord(id: Id, at: int, stream: OutputStream, data: seq<Byte>)
    | TruncatedRecord(id: Id, at: int, limit: nat)

  /** An execution and the events that reference it; deleting the one deletes the others. */
  datatype Row = Row(execution: Execution, events: seq<Event>)

  type Rows = map<Id, Row>

  // ---------------------------------------------------------------------------------------------
  // What one command does to one row
  // ---------------------------------------------------------------------------------------------

  function FreshRow(workspace: Id, session: Option<Id>, initiatorKind: string, now: int): Row {
    Row(Execution(workspace, session, initiatorKind, Queued, None, now, None, None, 0, false, 0), [])
  }

  /** Inserts the event under the next sequence number and advances the cursor. */
  function Append(id: Id, row: Row, at: int, payload: Payload): Row {
    var next := row.execution.lastSeq + 1;
    Row(row.execution.(lastSeq := next), row.events + [Event(id, next, at, payload)])
  }

  function Begun(id: Id, row: Row, pid: int, pgid: int, now: int): Row {
    var r := Append(id, row, now, Started(pid, pgid));
    r.(execution := r.execution.(state := Running, startedAt := Some(now)))
  }

  function Captured(row: Row, record: CaptureRecord): Row {
    match record
    case OutputRecord(id, at, stream, data) =>
      var r := Append(id, row, at, Output(stream, data));
      r.(execution := r.execution.(capturedBytes := row.execution.capturedBytes + |data|))
    case TruncatedRecord(id, at, limit) =>
      var r := Append(id, row, at, CaptureTruncated(limit));
      r.(execution := r.execution.(outputTruncated := true))
  }

  function Ended(id: Id, row: Row, state: ExecutionState, outcome: Outcome, now: int): Row {
    var r := Append(id, row, now, FinishedWith(outcome));
    r.(execution := r.execution.(state := state, outcome := Some(outcome), endedAt := Some(now)))
  }

  /** The event a change of a row appended last. */
  function LastEvent(row: Row): Event
    requires row.events != []
  {
    row.events[|row.events| - 1]
  }

  // ---------------------------------------------------------------------------------------------
  // The log invariant
  // ---------------------------------------------------------------------------------------------

  ghost predicate Numbered(id: Id, row: Row) {
    && |row.events| == row.execution.lastSeq
    && forall i | 0 <= i < |row.events| :: row.events[i].seqNo == i + 1 && row.events[i].id == id
  }

  datatype Kind = AStart | SomeOutput | ATruncation | AnEnd

  function KindOf(event: Event): Kind {
    match event.payload
    case Started(_, _) => AStart
    case Output(_, _) => SomeOutput
    case CaptureTruncated(_) => ATruncation
    case FinishedWith(_) => AnEnd
  }

  ghost predicate Has(events: seq<Event>, kind: Kind) {
    exists i :: 0 <= i < |events| && KindOf(events[i]) == kind
  }

  ghost predicate AtMostOne(events: seq<Event>, kind: Kind) {
    forall i, j | 0 <= i < |events| && 0 <= j < |events| && KindOf(events[i]) == KindOf(events[j]) == kind :: i == j
  }

  ghost predicate Before(events: seq<Event>, first: Kind, second: Kind) {
    forall i, j | 0 <= i < |events| && 0 <= j < |events|
        && KindOf(events[i]) == first && KindOf(events[j]) == second :: i < j
  }

  ghost predicate EndsWith(events: seq<Event>, outcome: Option<Outcome>) {
    forall i | 0 <= i < |events| && KindOf(events[i]) == AnEnd :: outcome == Some(events[i].payload.outcome)
  }

  ghost predicate Accounted(row: Row) {
    && row.execution.capturedBytes == |OutputBytes(row.events)|
    && (row.execution.outputTruncated <==> Has(row.events, ATruncation))
  }

  /** Terminal exactly when one event, and only one, is the final one; it carries the row's outcome. */
  ghost predicate EndedOnce(row: Row) {
    && (row.execution.state.IsTerminal() <==> Has(row.events, AnEnd))
    && AtMostOne(row.events, AnEnd)
    && EndsWith(row.events, row.execution.outcome)
    && (row.execution.state.IsTerminal() <==> row.execution.outcome.Some?)
    && (row.execution.state.IsTerminal() <==> row.execution.endedAt.Some?)
  }

  /** A queued row never started, a running one did; nothing starts twice or after its end. */
  ghost predicate StartedOnce(row: Row) {
    && (row.execution.startedAt.Some? <==> Has(row.events, AStart))
    && (row.execution.state.Queued? ==> row.execution.startedAt.None?)
    && (row.execution.state.Running? ==> row.execution.startedAt.Some?)
    && AtMostOne(row.events, AStart)
    && Before(row.events, AStart, AnEnd)
  }

  ghost predicate RowOk(id: Id, row: Row) {
    Numbered(id, row) && Accounted(row) && EndedOnce(row) && StartedOnce(row)
  }

  ghost predicate RowsOk(rows: Rows) {
    forall id {:trigger RowOk(id, rows[id])} | id in rows :: RowOk(id, rows[id])
  }

  lemma HasAfter(events: seq<Event>, event: Event, kind: Kind)
    ensures Has(events + [event], kind) <==> Has(events, kind) || KindOf(event) == kind
  {
    assert (events + [event])[|events|] == event;
    forall i | 0 <= i < |events|
      ensures (events + [event])[i] == events[i]
    {
    }
  }

  lemma OnceAfter(events: seq<Event>, event: Event, kind: Kind)
    requires AtMostOne(events, kind) && !(Has(events, kind) && KindOf(event) == kind)
    ensures AtMostOne(events + [event], kind)
  {
  }

  lemma BeforeAfter(events: seq<Event>, event: Event, first: Kind, second: Kind)
    requires Before(events, first, second) && first != second
    requires KindOf(event) == first ==> !Has(events, second)
    ensures Before(events + [event], first, second)
  {
  }

  lemma BytesAfter(events: seq<Event>, event: Event)
    ensures OutputBytes(events + [event]) == OutputBytes(events) + Data(event)
  {
    assert (events + [event])[..|events|] == events;
  }

  /** The facts about kinds that survive one more event. */
  lemma KindsAfter(events: seq<Event>, event: Event)
    requires AtMostOne(events, AnEnd) && AtMostOne(events, AStart) && Before(events, AStart, AnEnd)
    requires KindOf(event) == AnEnd ==> !Has(events, AnEnd)
    requires KindOf(event) == AStart ==> !Has(events, AStart) && !Has(events, AnEnd)
    ensures AtMostOne(events + [event], AnEnd) && AtMostOne(events + [event], AStart)
    ensures Before(events + [event], AStart, AnEnd)
    ensures forall kind :: Has(events + [event], kind) <==> Has(events, kind) || KindOf(event) == kind
    ensures OutputBytes(events + [event]) == OutputBytes(events) + Data(event)
  {
    OnceAfter(events, event, AnEnd);
    OnceAfter(events, event, AStart);
    BeforeAfter(events, event, AStart, AnEnd);
    BytesAfter(events, event);
    forall kind
      ensures Has(events + [event], kind) <==> Has(events, kind) || KindOf(event) == kind
    {
      HasAfter(events, event, kind);
    }
  }

  /** Appending an event keeps the numbering. */
  lemma AppendCounts(id: Id, row: Row, at: int, payload: Payload)
    requires Numbered(id, row)
    ensures Numbered(id, Append(id, row, at, payload))
    ensures Append(id, row, at, payload).events[..|row.events|] == row.events
  {
  }

  lemma BegunCounts(id: Id, row: Row, pid: int, pgid: int, now: int)
    requires Numbered(id, row) && Accounted(row)
    ensures Numbered(id, Begun(id, row, pid, pgid, now)) && Accounted(Begun(id, row, pid, pgid, now))
  {
    AppendCounts(id, row, now, Started(pid, pgid));
    HasAfter(row.events, LastEvent(Begun(id, row, pid, pgid, now)), ATruncation);
    BytesAfter(row.events, LastEvent(Begun(id, row, pid, pgid, now)));
  }

  lemma JustStarted(row: Row)
    requires row.execution.state == Running && row.execution.startedAt.Some? && Has(row.events, AStart)
    requires AtMostOne(row.events, AStart) && Before(row.events, AStart, AnEnd)
    ensures StartedOnce(row)
  {
  }

  lemma BegunKeeps(id: Id, row: Row, pid: int, pgid: int, now: int)
    requires RowOk(id, row) && row.execution.state == Queued
    ensures RowOk(id, Begun(id, row, pid, pgid, now))
  {
    var r := Begun(id, row, pid, pgid, now);
    KindsAfter(row.events, LastEvent(r));
    BegunCounts(id, row, pid, pgid, now);
    JustStarted(r);
    NeverEnded(r);
  }

  lemma NeverEnded(row: Row)
    requires !row.execution.state.IsTerminal() && !Has(row.events, AnEnd) && AtMostOne(row.events, AnEnd)
    requires row.execution.outcome.None? && row.execution.endedAt.None?
    ensures EndedOnce(row)
  {
  }

  lemma CapturedKeeps(row: Row, record: CaptureRecord)
    requires RowOk(record.id, row)
    ensures RowOk(record.id, Captured(row, record))
    ensures Captured(row, record).execution.state == row.execution.state
  {
    var r := Captured(row, record);
    KindsAfter(row.events, LastEvent(r));
    CapturedCounts(row, record);
    SameEnd(row, r);
    SameStart(row, r);
  }

  lemma CapturedCounts(row: Row, record: CaptureRecord)
    requires Numbered(record.id, row) && Accounted(row)
    ensures Numbered(record.id, Captured(row, record)) && Accounted(Captured(row, record))
  {
    var r := Captured(row, record);
    AppendCounts(record.id, row, record.at, LastEvent(r).payload);
    HasAfter(row.events, LastEvent(r), ATruncation);
    BytesAfter(row.events, LastEvent(r));
  }

  lemma SameStart(row: Row, after: Row)
    requires StartedOnce(row) && AtMostOne(after.events, AStart) && Before(after.events, AStart, AnEnd)
    requires Has(after.events, AStart) <==> Has(row.events, AStart)
    requires after.execution.state == row.execution.state && after.execution.startedAt == row.execution.startedAt
    ensures StartedOnce(after)
  {
  }

  lemma SameEnd(row: Row, after: Row)
    requires EndedOnce(row) && |after.events| == |row.events| + 1 && row.events == after.events[..|row.events|]
    requires KindOf(LastEvent(after)) != AnEnd && AtMostOne(after.events, AnEnd)
    requires Has(after.events, AnEnd) <==> Has(row.events, AnEnd)
    requires after.execution.state == row.execution.state && after.execution.outcome == row.execution.outcome
    requires after.execution.endedAt == row.execution.endedAt
    ensures EndedOnce(after)
  {
  }

  lemma EndedKeeps(id: Id, row: Row, state: ExecutionState, outcome: Outcome, now: int)
    requires RowOk(id, row) && !row.execution.state.IsTerminal() && state.IsTerminal()
    ensures RowOk(id, Ended(id, row, state, outcome, now))
  {
    KindsAfter(row.events, LastEvent(Ended(id, row, state, outcome, now)));
  }

  // ---------------------------------------------------------------------------------------------
  // Batches
  // ---------------------------------------------------------------------------------------------

  /** The records of one execution, in order. */
  function RecordsOf(id: Id, records: seq<CaptureRecord>): seq<CaptureRecord> {
    if records == [] then []
    else
      var last := records[|records| - 1];
      RecordsOf(id, records[..|records| - 1]) + (if last.id == id then [last] else [])
  }

  function CapturedAll(row: Row, records: seq<CaptureRecord>): Row {
    if records == [] then row
    else Captured(CapturedAll(row, records[..|records| - 1]), records[|records| - 1])
  }

  /** A batch is one transaction: it succeeds only if every record's execution exists. */
  predicate BatchAccepted(rows: Rows, records: seq<CaptureRecord>) {
    forall i | 0 <= i < |records| :: records[i].id in rows
  }

  function AppendBatch(rows: Rows, records: seq<CaptureRecord>): (after: Rows)
    requires BatchAccepted(rows, records)
    ensures after.Keys == rows.Keys
  {
    if records == [] then rows
    else
      var last := records[|records| - 1];
      assert BatchAccepted(rows, records[..|records| - 1]);
      var before := AppendBatch(rows, records[..|records| - 1]);
      assert last.id in before;
      before[last.id := Captured(before[last.id], last)]
  }

  lemma CapturedAllSnoc(row: Row, records: seq<CaptureRecord>, record: CaptureRecord)
    ensures CapturedAll(row, records + [record]) == Captured(CapturedAll(row, records), record)
  {
    assert (records + [record])[..|records|] == records;
  }

  lemma {:induction false} CapturedAllConcat(row: Row, a: seq<CaptureRecord>, b: seq<CaptureRecord>)
    ensures CapturedAll(row, a + b) == CapturedAll(CapturedAll(row, a), b)
    decreases |b|
  {
    if b == [] {
      assert a + b == a;
    } else {
      assert (a + b)[..|a + b| - 1] == a + b[..|b| - 1];
      CapturedAllConcat(row, a, b[..|b| - 1]);
    }
  }

  lemma {:induction false} RecordsOfConcat(id: Id, a: seq<CaptureRecord>, b: seq<CaptureRecord>)
    ensures RecordsOf(id, a + b) == RecordsOf(id, a) + RecordsOf(id, b)
    decreases |b|
  {
    if b == [] {
      assert a + b == a;
    } else {
      assert (a + b)[..|a + b| - 1] == a + b[..|b| - 1];
      RecordsOfConcat(id, a, b[..|b| - 1]);
    }
  }

  /** What a batch does to an execution depends on that execution's own records alone. */
  lemma {:induction false} BatchIsPerExecution(rows: Rows, records: seq<CaptureRecord>, id: Id)
    requires BatchAccepted(rows, records) && id in rows
    ensures id in AppendBatch(rows, records)
    ensures AppendBatch(rows, records)[id] == CapturedAll(rows[id], RecordsOf(id, records))
    decreases |records|
  {
    if records != [] {
      var init, last := records[..|records| - 1], records[|records| - 1];
      assert BatchAccepted(rows, init);
      BatchIsPerExecution(rows, init, id);
      if last.id == id {
        CapturedAllSnoc(rows[id], RecordsOf(id, init), last);
      } else {
        assert RecordsOf(id, init) + [] == RecordsOf(id, init);
      }
    }
  }

  /** Where a run of records is cut into batches makes no difference to any log. */
  lemma BatchSplit(rows: Rows, a: seq<CaptureRecord>, b: seq<CaptureRecord>)
    requires BatchAccepted(rows, a) && BatchAccepted(rows, b)
    ensures BatchAccepted(rows, a + b) && BatchAccepted(AppendBatch(rows, a), b)
    ensures AppendBatch(rows, a + b) == AppendBatch(AppendBatch(rows, a), b)
  {
    assert BatchAccepted(rows, a + b);
    var once, twice := AppendBatch(rows, a + b), AppendBatch(AppendBatch(rows, a), b);
    forall id | id in rows
      ensures once[id] == twice[id]
    {
      BatchIsPerExecution(rows, a + b, id);
      BatchIsPerExecution(rows, a, id);
      BatchIsPerExecution(AppendBatch(rows, a), b, id);
      RecordsOfConcat(id, a, b);
      CapturedAllConcat(rows[id], RecordsOf(id, a), RecordsOf(id, b));
    }
  }

  /** Interleaving the records of different executions differently changes no log. */
  lemma BatchInterleaving(rows: Rows, a: seq<CaptureRecord>, b: seq<CaptureRecord>)
    requires BatchAccepted(rows, a) && BatchAccepted(rows, b)
    requires forall id | id in rows :: RecordsOf(id, a) == RecordsOf(id, b)
    ensures AppendBatch(rows, a) == AppendBatch(rows, b)
  {
    forall id | id in rows
      ensures AppendBatch(rows, a)[id] == AppendBatch(rows, b)[id]
    {
      BatchIsPerExecution(rows, a, id);
      BatchIsPerExecution(rows, b, id);
    }
  }

  lemma UpdateKeeps(rows: Rows, id: Id, row: Row)
    requires RowsOk(rows) && RowOk(id, row)
    ensures RowsOk(rows[id := row])
  {
    var after := rows[id := row];
    assert forall other | other in after :: other == id || after[other] == rows[other];
  }

  lemma {:induction false} BatchKeeps(rows: Rows, records: seq<CaptureRecord>)
    requires RowsOk(rows) && BatchAccepted(rows, records)
    ensures RowsOk(AppendBatch(rows, records))
    ensures forall id | id in rows ::
      AppendBatch(rows, records)[id].execution.state == rows[id].execution.state
    decreases |records|
  {
    if records != [] {
      var init, last := records[..|records| - 1], records[|records| - 1];
      assert BatchAccepted(rows, init);
      BatchKeeps(rows, init);
      CapturedKeeps(AppendBatch(rows, init)[last.id], last);
      UpdateKeeps(AppendBatch(rows, init), last.id, Captured(AppendBatch(rows, init)[last.id], last));
    }
  }

  // ---------------------------------------------------------------------------------------------
  // The commands of the store actor, and whole runs of them
  // ---------------------------------------------------------------------------------------------

  datatype Command =
    | CreateExecution(id: Id, workspace: Id, session: Option<Id>, initiatorKind: string, now: int)
    | MarkRunning(id: Id, pid: int, pgid: int, now: int)
    | AppendCaptureBatch(records: seq<CaptureRecord>)
    | Finish(id: Id, state: ExecutionState, outcome: Outcome, now: int)
    | CancelQueued(now: int)
    | ReconcileIncomplete(now: int)
    | Prune(removed: set<Id>)

  const RESTARTED: string := "daemon restarted before the execution completed"

  /** Every row in the chosen states ends with the same outcome. */
  function EndAll(rows: Rows, ids: set<Id>, state: ExecutionState, outcome: Outcome, now: int): (after: Rows)
    requires ids <= rows.Keys
    ensures after.Keys == rows.Keys
  {
    map id | id in rows :: if id in ids then Ended(id, rows[id], state, outcome, now) else rows[id]
  }

  function QueuedIds(rows: Rows): set<Id> {
    set id | id in rows && rows[id].execution.state == Queued
  }

  function IncompleteIds(rows: Rows): set<Id> {
    set id | id in rows && !rows[id].execution.state.IsTerminal()
  }

  /** A command the store answers with an error leaves the rows as they were. */
  function Apply(rows: Rows, command: Command): Rows {
    match command
    case CreateExecution(id, workspace, session, kind, now) =>
      if id in rows then rows else rows[id := FreshRow(workspace, session, kind, now)]
    case MarkRunning(id, pid, pgid, now) =>
      if id in rows && rows[id].execution.state == Queued
      then rows[id := Begun(id, rows[id], pid, pgid, now)] else rows
    case AppendCaptureBatch(records) =>
      if BatchAccepted(rows, records) then AppendBatch(rows, records) else rows
    case Finish(id, state, outcome, now) =>
      if id in rows && !rows[id].execution.state.IsTerminal() && state.IsTerminal()
      then rows[id := Ended(id, rows[id], state, outcome, now)] else rows
    case CancelQueued(now) =>
      EndAll(rows, QueuedIds(rows), Cancelled, CancelledBy(None), now)
    case ReconcileIncomplete(now) =>
      EndAll(rows, IncompleteIds(rows), Interrupted,
             InterruptedBy(RESTARTED), now)
    case Prune(removed) =>
      map id | id in rows && !(id in removed && rows[id].execution.state.IsTerminal()) :: rows[id]
  }

  function Run(rows: Rows, commands: seq<Command>): Rows {
    if commands == [] then rows
    else Apply(Run(rows, commands[..|commands| - 1]), commands[|commands| - 1])
  }

  lemma EndAllKeeps(rows: Rows, ids: set<Id>, state: ExecutionState, outcome: Outcome, now: int)
    requires RowsOk(rows) && ids <= IncompleteIds(rows) && state.IsTerminal()
    ensures RowsOk(EndAll(rows, ids, state, outcome, now))
  {
    forall id | id in ids
      ensures RowOk(id, Ended(id, rows[id], state, outcome, now))
    {
      EndedKeeps(id, rows[id], state, outcome, now);
    }
  }

  lemma ApplyKeeps(rows: Rows, command: Command)
    requires RowsOk(rows)
    ensures RowsOk(Apply(rows, command))
  {
    match command
    case CreateExecution(_, _, _, _, _) =>
    case MarkRunning(id, pid, pgid, now) =>
      if id in rows && rows[id].execution.state == Queued {
        BegunKeeps(id, rows[id], pid, pgid, now);
      }
    case AppendCaptureBatch(records) =>
      if BatchAccepted(rows, records) { BatchKeeps(rows, records); }
    case Finish(id, state, outcome, now) =>
      if id in rows && !rows[id].execution.state.IsTerminal() && state.IsTerminal() {
        EndedKeeps(id, rows[id], state, outcome, now);
      }
    case CancelQueued(now) =>
      EndAllKeeps(rows, QueuedIds(rows), Cancelled, CancelledBy(None), now);
    case ReconcileIncomplete(now) =>
      EndAllKeeps(rows, IncompleteIds(rows), Interrupted,
                  InterruptedBy(RESTARTED), now);
    case Prune(_) =>
  }

  /** The log invariant holds in every state any run of commands reaches. */
  lemma {:induction false} LogInvariant(commands: seq<Command>)
    ensures RowsOk(Run(map[], commands))
    decreases |commands|
  {
    if commands != [] {
      LogInvariant(commands[..|commands| - 1]);
      ApplyKeeps(Run(map[], commands[..|commands| - 1]), commands[|commands| - 1]);
    }
  }

  // ---------------------------------------------------------------------------------------------
  // What a command never does
  // ---------------------------------------------------------------------------------------------

  /** A row keeps its log, and once it is terminal also its state and outcome. */
  ghost predicate Extends(before: Row, after: Row) {
    && before.events <= after.events
    && (before.execution.state.IsTerminal() ==>
          && after.execution.state == before.execution.state
          && after.execution.outcome == before.execution.outcome
          && after.execution.endedAt == before.execution.endedAt)
    && (before.execution.startedAt.Some? ==> after.execution.startedAt == before.execution.startedAt)
    && (after.execution.state == Queued ==> before.execution.state == Queued)
  }

  predicate Prunes(command: Command, id: Id) {
    command.Prune? && id in command.removed
  }

  lemma {:induction false} CapturedAllExtends(row: Row, records: seq<CaptureRecord>)
    ensures Extends(row, CapturedAll(row, records))
    decreases |records|
  {
    if records != [] {
      CapturedAllExtends(row, records[..|records| - 1]);
    }
  }

  lemma ApplyExtends(rows: Rows, command: Command, id: Id)
    requires id in rows && (rows[id].execution.state == Queued ==> rows[id].execution.startedAt.None?)
    ensures !Prunes(command, id) ==> id in Apply(rows, command)
    ensures !rows[id].execution.state.IsTerminal() ==> id in Apply(rows, command)
    ensures id in Apply(rows, command) ==> Extends(rows[id], Apply(rows, command)[id])
  {
    if command.AppendCaptureBatch? && BatchAccepted(rows, command.records) {
      BatchIsPerExecution(rows, command.records, id);
      CapturedAllExtends(rows[id], RecordsOf(id, command.records));
    }
  }

  /** No run rewrites a log, leaves a terminal state or alters an outcome, and only pruning a
      terminal execution removes one. */
  lemma {:induction false} RunExtends(rows: Rows, commands: seq<Command>, id: Id)
    requires RowsOk(rows) && id in rows
    requires forall i | 0 <= i < |commands| :: !Prunes(commands[i], id)
    ensures RowsOk(Run(rows, commands)) && id in Run(rows, commands)
    ensures Extends(rows[id], Run(rows, commands)[id])
    decreases |commands|
  {
    if commands != [] {
      var init := commands[..|commands| - 1];
      RunExtends(rows, init, id);
      ApplyKeeps(Run(rows, init), commands[|commands| - 1]);
      assert RowOk(id, Run(rows, init)[id]);
      ApplyExtends(Run(rows, init), commands[|commands| - 1], id);
    }
  }

  /** After start-up reconciliation every execution is terminal, and those that were not end as interrupted. */
  lemma ReconcileEndsEverything(rows: Rows, now: int, id: Id)
    requires RowsOk(rows) && id in rows
    ensures Apply(rows, ReconcileIncomplete(now))[id].execution.state ==
      if rows[id].execution.state.IsTerminal() then rows[id].execution.state else Interrupted
    ensures rows[id].execution.state.IsTerminal() ==> Apply(rows, ReconcileIncomplete(now))[id] == rows[id]
    ensures !rows[id].execution.state.IsTerminal() ==>
      KindOf(LastEvent(Apply(rows, ReconcileIncomplete(now))[id])) == AnEnd
  {
  }

  /** A final event need not be last: capture is accepted for an execution that was cancelled while queued. */
  lemma OutputAfterTheEnd() returns (commands: seq<Command>)
    ensures "x" in Run(map[], commands)
    ensures var row := Run(map[], commands)["x"];
      && row.execution.state == Cancelled && |row.events| == 2
      && KindOf(row.events[0]) == AnEnd && KindOf(row.events[1]) == SomeOutput
  {
    var create := CreateExecution("x", "w", None, "cli", 0);
    var finish := Finish("x", Cancelled, CancelledBy(None), 1);
    var append := AppendCaptureBatch([OutputRecord("x", 2, Stdout, [7])]);
    var r1 := Apply(map[], create);
    var r2 := Apply(r1, finish);
    assert [create][..0] == [] && [create, finish][..1] == [create];
    assert Run(map[], [create]) == r1;
    assert Run(map[], [create, finish]) == r2;
    var records := append.records;
    assert records[..0] == [];
    assert AppendBatch(r2, records[..0]) == r2;
    assert BatchAccepted(r2, records);
    commands := [create, finish, append];
    assert commands[..2] == [create, finish];
    assert Run(map[], commands) == Apply(r2, append);
    assert Apply(r2, append)["x"] == Captured(r2["x"], records[0]);
  }

  // ---------------------------------------------------------------------------------------------
  // When the final event stays the last one
  // ---------------------------------------------------------------------------------------------

  ghost predicate EndIsLast(row: Row) {
    row.events != [] && KindOf(LastEvent(row)) == AnEnd
  }

  /** The one way past the end: capturing asks only whether the execution exists. */
  predicate CapturesFor(rows: Rows, command: Command, id: Id) {
    command.AppendCaptureBatch? && BatchAccepted(rows, command.records) && RecordsOf(id, command.records) != []
  }

  lemma {:induction false} CapturedAllEndsWithCapture(row: Row, records: seq<CaptureRecord>)
    requires records != []
    ensures var after := CapturedAll(row, records);
      |after.events| == |row.events| + |records| && row.events <= after.events
      && KindOf(LastEvent(after)) != AnEnd
    decreases |records|
  {
    if |records| > 1 {
      CapturedAllEndsWithCapture(row, records[..|records| - 1]);
    } else {
      assert CapturedAll(row, records[..0]) == row;
    }
  }

  lemma CapturingPassesTheEnd(rows: Rows, command: Command, id: Id)
    requires id in rows && CapturesFor(rows, command, id)
    ensures var after := Apply(rows, command);
      id in after && rows[id].events < after[id].events && KindOf(LastEvent(after[id])) != AnEnd
  {
    BatchIsPerExecution(rows, command.records, id);
    CapturedAllEndsWithCapture(rows[id], RecordsOf(id, command.records));
  }

  /** No other command adds to the log of a terminal execution. */
  lemma OthersSpareTerminal(rows: Rows, command: Command, id: Id)
    requires id in rows && rows[id].execution.state.IsTerminal()
    requires !Prunes(command, id) && !CapturesFor(rows, command, id)
    ensures id in Apply(rows, command) && Apply(rows, command)[id] == rows[id]
  {
    if command.AppendCaptureBatch? && BatchAccepted(rows, command.records) {
      BatchIsPerExecution(rows, command.records, id);
    }
  }

  /** The final event of a terminal execution stays last exactly as long as no accepted batch holds a
      record of that execution. */
  lemma EndStaysLastUnlessCaptured(rows: Rows, command: Command, id: Id)
    requires id in rows && rows[id].execution.state.IsTerminal() && EndIsLast(rows[id]) && !Prunes(command, id)
    ensures id in Apply(rows, command)
    ensures EndIsLast(Apply(rows, command)[id]) <==> !CapturesFor(rows, command, id)
  {
    if CapturesFor(rows, command, id) {
      CapturingPassesTheEnd(rows, command, id);
    } else {
      OthersSpareTerminal(rows, command, id);
    }
  }

  ghost predicate CapturesAt(rows: Rows, commands: seq<Command>, i: int, id: Id) {
    0 <= i < |commands| && CapturesFor(Run(rows, commands[..i]), commands[i], id)
  }

  ghost predicate EverCaptures(rows: Rows, commands: seq<Command>, id: Id) {
    exists i :: CapturesAt(rows, commands, i, id)
  }

  lemma CapturesInFront(rows: Rows, commands: seq<Command>, n: nat, i: int, id: Id)
    requires n <= |commands|
    ensures CapturesAt(rows, commands[..n], i, id) <==> i < n && CapturesAt(rows, commands, i, id)
  {
    if 0 <= i < n { assert commands[..n][..i] == commands[..i] && commands[..n][i] == commands[i]; }
  }

  lemma EverCapturesSnoc(rows: Rows, commands: seq<Command>, id: Id)
    requires commands != []
    ensures var n := |commands| - 1;
      EverCaptures(rows, commands, id) <==> EverCaptures(rows, commands[..n], id) || CapturesAt(rows, commands, n, id)
  {
    var n := |commands| - 1;
    if EverCaptures(rows, commands[..n], id) {
      var i :| CapturesAt(rows, commands[..n], i, id);
      CapturesInFront(rows, commands, n, i, id);
    }
    if EverCaptures(rows, commands, id) {
      var i :| CapturesAt(rows, commands, i, id);
      CapturesInFront(rows, commands, n, i, id);
    }
  }

  /** Something follows the final event. */
  ghost predicate EndIsPassed(row: Row) {
    row.events != [] && KindOf(LastEvent(row)) != AnEnd
  }

  lemma PassedStaysPassed(rows: Rows, command: Command, id: Id)
    requires id in rows && rows[id].execution.state.IsTerminal() && EndIsPassed(rows[id]) && !Prunes(command, id)
    ensures id in Apply(rows, command) && EndIsPassed(Apply(rows, command)[id])
  {
    if CapturesFor(rows, command, id) {
      CapturingPassesTheEnd(rows, command, id);
    } else {
      OthersSpareTerminal(rows, command, id);
    }
  }

  /** Over whole runs: once an execution has ended, its final event is the last of its log exactly as
      long as no batch with a record of it has been accepted since. */
  lemma {:induction false} EndIsLastUnlessCaptured(rows: Rows, commands: seq<Command>, id: Id)
    requires RowsOk(rows) && id in rows && rows[id].execution.state.IsTerminal() && EndIsLast(rows[id])
    requires forall i | 0 <= i < |commands| :: !Prunes(commands[i], id)
    ensures id in Run(rows, commands) && Run(rows, commands)[id].execution.state.IsTerminal()
    ensures EndIsLast(Run(rows, commands)[id]) <==> !EverCaptures(rows, commands, id)
    ensures EverCaptures(rows, commands, id) ==> EndIsPassed(Run(rows, commands)[id])
    decreases |commands|
  {
    RunExtends(rows, commands, id);
    if commands != [] {
      var init, last := commands[..|commands| - 1], commands[|commands| - 1];
      EndIsLastUnlessCaptured(rows, init, id);
      EverCapturesSnoc(rows, commands, id);
      if EverCaptures(rows, init, id) {
        PassedStaysPassed(Run(rows, init), last, id);
      } else {
        EndStaysLastUnlessCaptured(Run(rows, init), last, id);
        if CapturesFor(Run(rows, init), last, id) { CapturingPassesTheEnd(Run(rows, init), last, id); }
      }
    }
  }

  /** An execution that a command ends has its final event last at that moment. */
  lemma JustEndedIsLast(rows: Rows, command: Command, id: Id)
    requires RowsOk(rows) && id in rows && !rows[id].execution.state.IsTerminal()
    requires id in Apply(rows, command) && Apply(rows, command)[id].execution.state.IsTerminal()
    ensures EndIsLast(Apply(rows, command)[id])
  {
    if command.AppendCaptureBatch? && BatchAccepted(rows, command.records) { BatchKeeps(rows, command.records); }
  }

  /** A row may be ended only with a terminal state: any other breaks the log invariant. */
  lemma EndingNeedsATerminalState(id: Id, row: Row, state: ExecutionState, outcome: Outcome, now: int)
    requires RowOk(id, row) && !row.execution.state.IsTerminal()
    ensures RowOk(id, Ended(id, row, state, outcome, now)) <==> state.IsTerminal()
  {
    var after := Ended(id, row, state, outcome, now);
    if state.IsTerminal() {
      EndedKeeps(id, row, state, outcome, now);
    } else {
      assert KindOf(after.events[|row.events|]) == AnEnd;
    }
  }
}
