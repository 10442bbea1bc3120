/** The store's execution commands as the actor runs them, one at a time, on the tables in place. */
module Database {
  import opened Model
  import opened EventLog
  import opened Paging
  import opened Retention

  class Database {
    var rows: Rows

    ghost predicate Valid()
      reads this
    {
      RowsOk(rows)
    }

    constructor ()
      ensures Valid() && rows == map[]
    {
      rows := map[];
    }

    method CreateExecution(id: Id, workspace: Id, session: Option<Id>, initiatorKind: string, now: int)
      returns (r: Result<Execution>)
      requires Valid()
      modifies this
      ensures Valid()
      ensures rows == Apply(old(rows), EventLog.CreateExecution(id, workspace, session, initiatorKind, now))
      ensures r.Ok? <==> id !in old(rows)
      ensures r.Ok? ==> id in rows && r.value == rows[id].execution && rows[id].events == []
    {
      ApplyKeeps(rows, EventLog.CreateExecution(id, workspace, session, initiatorKind, now));
      if id in rows {
        return Err(StorageUnavailable);
      }
      var row := FreshRow(workspace, session, initiatorKind, now);
      rows := rows[id := row];
      return Ok(row.execution);
    }

    method MarkRunning(id: Id, pid: int, pgid: int, now: int) returns (r: Result<Event>)
      requires Valid()
      modifies this
      ensures Valid()
      ensures rows == Apply(old(rows), EventLog.MarkRunning(id, pid, pgid, now))
      ensures r.Ok? <==> id in old(rows) && old(rows)[id].execution.state == Queued
      ensures r.Ok? ==> id in rows && rows[id].events == old(rows)[id].events + [r.value]
      ensures r.Err? ==> r.error == if id in old(rows) then AlreadyTerminal(id) else ExecutionNotFound(id)
    {
      ApplyKeeps(rows, EventLog.MarkRunning(id, pid, pgid, now));
      if id !in rows {
        return Err(ExecutionNotFound(id));
      }
      if rows[id].execution.state != Queued {
        return Err(AlreadyTerminal(id));
      }
      var row := Begun(id, rows[id], pid, pgid, now);
      rows := rows[id := row];
      return Ok(LastEvent(row));
    }

    method AppendCaptureBatch(records: seq<CaptureRecord>) returns (r: Result<seq<Event>>)
      requires Valid()
      modifies this
      ensures Valid()
      ensures rows == Apply(old(rows), EventLog.AppendCaptureBatch(records))
      ensures r.Ok? <==> BatchAccepted(old(rows), records)
      ensures r.Ok? ==> |r.value| == |records|
      ensures r.Ok? ==> EventsMatch(old(rows), rows, r.value)
    {
      var transaction, events, error := CaptureInto(rows, records);
      if error.Some? {
        return Err(error.value);
      }
      BatchKeeps(rows, records);
      rows := transaction;
      return Ok(events);
    }

    /** The transaction of a batch, on its own copy of the table. */
    static method CaptureInto(rows: Rows, records: seq<CaptureRecord>)
      returns (transaction: Rows, events: seq<Event>, error: Option<Error>)
      ensures error.None? <==> BatchAccepted(rows, records)
      ensures error.None? ==> transaction == AppendBatch(rows, records)
      ensures error.None? ==> |events| == |records| && EventsMatch(rows, transaction, events)
    {
      transaction, events, error := rows, [], None;
      var i := 0;
      while i < |records|
        invariant i <= |records| && |events| == i
        invariant BatchAccepted(rows, records[..i])
        invariant transaction == AppendBatch(rows, records[..i])
        invariant EventsMatch(rows, transaction, events)
      {
        var record := records[i];
        if record.id !in transaction {
          error := Some(ExecutionNotFound(record.id));
          return;
        }
        BatchStep(rows, records, i);
        var row := Captured(transaction[record.id], record);
        EventsStep(rows, transaction, events, record.id, row);
        transaction := transaction[record.id := row];
        events := events + [LastEvent(row)];
        i := i + 1;
      }
      assert records[..i] == records;
    }

    /** Does not check the new state: it is up to the callers to end an execution with a terminal one. */
    method Finish(id: Id, state: ExecutionState, outcome: Outcome, now: int) returns (r: Result<Event>)
      requires Valid()
      modifies this
      ensures Valid() <==> r.Err? || state.IsTerminal()
      ensures r.Ok? <==> id in old(rows) && !old(rows)[id].execution.state.IsTerminal()
      ensures r.Ok? ==> rows == old(rows)[id := Ended(id, old(rows)[id], state, outcome, now)]
      ensures r.Ok? ==> r.value == LastEvent(rows[id])
      ensures r.Err? ==> rows == old(rows)
      ensures r.Err? ==> r.error == if id in old(rows) then AlreadyTerminal(id) else ExecutionNotFound(id)
    {
      if id !in rows {
        return Err(ExecutionNotFound(id));
      }
      if rows[id].execution.state.IsTerminal() {
        return Err(AlreadyTerminal(id));
      }
      EndingNeedsATerminalState(id, rows[id], state, outcome, now);
      if state.IsTerminal() {
        UpdateKeeps(rows, id, Ended(id, rows[id], state, outcome, now));
      }
      var row := Ended(id, rows[id], state, outcome, now);
      rows := rows[id := row];
      assert RowsOk(rows) ==> RowOk(id, rows[id]);
      return Ok(LastEvent(row));
    }

    /** Finishes the executions one transaction at a time; storage accepts at most `accepted` of
        them. When it stops early the ones in `done` stay finished, though no event is returned. */
    static method EndEach(rows: Rows, ids: seq<Id>, state: ExecutionState, outcome: Outcome, now: int, accepted: nat)
      returns (table: Rows, r: Result<seq<Event>>)
      requires Distinct(ids) && Elements(ids) <= rows.Keys
      ensures table == EndAll(rows, Elements(ids[..if accepted < |ids| then accepted else |ids|]), state, outcome, now)
      ensures r.Ok? <==> |ids| <= accepted
      ensures r.Ok? ==> |r.value| == |ids| && EventsMatch(rows, table, r.value)
    {
      var events: seq<Event> := [];
      var i := 0;
      table := rows;
      while i < |ids| && i < accepted
        invariant i <= |ids| && i <= accepted && |events| == i
        invariant table == EndAll(rows, Elements(ids[..i]), state, outcome, now)
        invariant EventsMatch(rows, table, events)
        decreases |ids| - i
      {
        ElementsNext(ids, i);
        EndStep(rows, table, events, Elements(ids[..i]), ids[i], state, outcome, now);
        var row := Ended(ids[i], table[ids[i]], state, outcome, now);
        table := table[ids[i] := row];
        events := events + [LastEvent(row)];
        i := i + 1;
      }
      r := if i == |ids| then Ok(events) else Err(StorageUnavailable);
    }

    /** The ids a query yields, in some order. */
    static method Listed(ids: set<Id>) returns (list: seq<Id>)
      ensures Distinct(list) && Elements(list) == ids && |list| == |ids|
    {
      var left := ids;
      list := [];
      while left != {}
        invariant left <= ids && Elements(list) == ids - left && Distinct(list)
        invariant |list| + |left| == |ids|
        decreases |left|
      {
        var id :| id in left;
        ElementsSnoc(list, id);
        list := list + [id];
        left := left - {id};
      }
    }

    method CancelQueued(now: int, accepted: nat) returns (r: Result<seq<Event>>, ghost done: set<Id>)
      requires Valid()
      modifies this
      ensures Valid() && done <= QueuedIds(old(rows))
      ensures rows == EndAll(old(rows), done, Cancelled, CancelledBy(None), now)
      ensures r.Ok? <==> |QueuedIds(old(rows))| <= accepted
      ensures r.Ok? ==> rows == Apply(old(rows), EventLog.CancelQueued(now)) && QueuedIds(rows) == {}
      ensures r.Ok? ==> EventsMatch(old(rows), rows, r.value)
    {
      var ids := Listed(QueuedIds(rows));
      var table;
      table, r := EndEach(rows, ids, Cancelled, CancelledBy(None), now, accepted);
      done := Elements(ids[..if accepted < |ids| then accepted else |ids|]);
      ReachedIds(ids, accepted);
      AllQueuedEnded(rows, now);
      EndAllKeeps(rows, done, Cancelled, CancelledBy(None), now);
      rows := table;
    }

    method ReconcileIncomplete(now: int, accepted: nat) returns (r: Result<nat>, ghost done: set<Id>)
      requires Valid()
      modifies this
      ensures Valid() && done <= IncompleteIds(old(rows))
      ensures rows == EndAll(old(rows), done, Interrupted, InterruptedBy(RESTARTED), now)
      ensures r.Ok? <==> |IncompleteIds(old(rows))| <= accepted
      ensures r.Ok? ==> rows == Apply(old(rows), EventLog.ReconcileIncomplete(now)) && IncompleteIds(rows) == {}
      ensures r.Ok? ==> r.value == |IncompleteIds(old(rows))|
    {
      var ids := Listed(IncompleteIds(rows));
      var table, events := EndEach(rows, ids, Interrupted, InterruptedBy(RESTARTED), now, accepted);
      done := Elements(ids[..if accepted < |ids| then accepted else |ids|]);
      ReachedIds(ids, accepted);
      AllIncompleteEnded(rows, now);
      EndAllKeeps(rows, done, Interrupted, InterruptedBy(RESTARTED), now);
      rows := table;
      r := if events.Ok? then Ok(|events.value|) else Err(events.error);
    }

    /** The loop of `read_output`: rows are taken while the budget lasts, the first in any case. */
    method ReadOutput(id: Id, after: nat, max: nat) returns (r: Result<Page>)
      requires after < TWO_64
      ensures r.Ok? <==> id in rows
      ensures r.Ok? ==> r.value == ReadPage(rows[id].execution, rows[id].events, after, max)
    {
      if id !in rows {
        return Err(ExecutionNotFound(id));
      }
      var execution := rows[id].execution;
      var page := TakeRows(execution, Limited(Selected(rows[id].events, AsI64(after))), after, max);
      return Ok(page);
    }

    static method TakeRows(execution: Execution, found: seq<Event>, after: nat, max: nat) returns (page: Page)
      ensures page == PageOf(execution, found, after, max)
    {
      var events: seq<Event> := [];
      var bytes := 0;
      var hasMore := false;
      var i := 0;
      while i < |found|
        invariant i <= |found| && events == found[..i] && bytes == Bytes(events) && !hasMore
        invariant forall k | 1 < k <= i :: Bytes(found[..k]) <= max
        decreases |found| - i
      {
        var event := found[i];
        assert found[..i + 1][..i] == found[..i];
        if events != [] && bytes + event.Size() > max {
          hasMore := true;
          break;
        }
        bytes := bytes + event.Size();
        events := events + [event];
        i := i + 1;
      }
      PageLengthIsUnique(found, max, i, PageLength(found, max));
      var next := if events == [] then after else events[|events| - 1].seqNo;
      page := Page(execution, events, next, hasMore || next < execution.lastSeq);
    }

    /** Ages out old terminal executions, then removes the oldest until the byte limit holds. */
    method Prune(cutoff: int, limit: nat) returns (removed: nat, ghost order: seq<Id>, ghost k: nat)
      requires Valid()
      modifies this
      ensures Valid()
      ensures var aged := old(rows) - ExpiredIds(old(rows), cutoff);
        && OldestFirst(aged, order) && EnoughRemoved(aged, order, limit, k)
        && rows == Without(aged, order[..k])
        && removed == |ExpiredIds(old(rows), cutoff)| + k
    {
      var expired := ExpiredIds(rows, cutoff);
      var table := rows - expired;
      removed := |expired|;
      ghost var aged := table;
      var total := CapturedTotal(table);
      var queue := QueryOldestFirst(table);
      order, k := queue, 0;
      TrimmingStarts(aged, order, limit);
      if total > limit {
        var excess: nat := total - limit;
        var i := 0;
        while i < |queue| && excess != 0
          invariant Trimming(aged, order, limit, i, table, excess) && removed == |expired| + i
        {
          TrimOne(aged, order, limit, i, table, excess);
          var size := table[queue[i]].execution.capturedBytes;
          table := table - {queue[i]};
          removed := removed + 1;
          excess := if excess > size then excess - size else 0;
          i := i + 1;
        }
        k := i;
        TrimmingEnds(aged, order, limit, k, table, excess);
      } else {
        TrimmingEnds(aged, order, limit, 0, table, 0);
      }
      rows := table;
    }

    /** `SUM(captured_bytes)` over the table. */
    static method CapturedTotal(rows: Rows) returns (total: nat)
      ensures total == Total(rows)
    {
      var left := rows;
      total := 0;
      while left != map[]
        invariant total + Total(left) == Total(rows)
        decreases |left|
      {
        var id :| id in left;
        TotalWithout(left, id);
        total := total + left[id].execution.capturedBytes;
        left := left - {id};
      }
    }

    /** `ORDER BY ended_at_ms ASC` over the terminal executions; ties in any order. */
    static method QueryOldestFirst(rows: Rows) returns (order: seq<Id>)
      ensures OldestFirst(rows, order)
    {
      var left := TerminalIds(rows);
      order := [];
      while left != {}
        invariant left <= TerminalIds(rows) && OldestSoFar(rows, order, left)
        decreases |left|
      {
        OldestExists(rows, left);
        var id :| id in left && forall other | other in left :: EndTime(rows[id]) <= EndTime(rows[other]);
        NextOldest(rows, order, left, id);
        order := order + [id];
        left := left - {id};
      }
    }
  }

  /** The events of one execution among those a batch returned. */
  function EventsOf(id: Id, events: seq<Event>): seq<Event> {
    if events == [] then []
    else
      var last := events[|events| - 1];
      EventsOf(id, events[..|events| - 1]) + (if last.id == id then [last] else [])
  }

  /** Every log grew by exactly the returned events that name its execution. */
  ghost predicate EventsMatch(before: Rows, after: Rows, events: seq<Event>) {
    && before.Keys == after.Keys
    && forall id | id in before :: after[id].events == before[id].events + EventsOf(id, events)
  }

  lemma BatchStep(rows: Rows, records: seq<CaptureRecord>, i: nat)
    requires i < |records| && BatchAccepted(rows, records[..i]) && records[i].id in rows
    ensures BatchAccepted(rows, records[..i + 1])
    ensures var before := AppendBatch(rows, records[..i]);
      AppendBatch(rows, records[..i + 1]) == before[records[i].id := Captured(before[records[i].id], records[i])]
  {
    assert records[..i + 1][..i] == records[..i];
  }

  lemma EventsStep(rows: Rows, before: Rows, events: seq<Event>, id: Id, row: Row)
    requires EventsMatch(rows, before, events) && id in before
    requires row.events != [] && row.events == before[id].events + [LastEvent(row)] && LastEvent(row).id == id
    ensures EventsMatch(rows, before[id := row], events + [LastEvent(row)])
  {
    var grown := events + [LastEvent(row)];
    assert grown[..|events|] == events;
    forall other | other in rows
      ensures before[id := row][other].events == rows[other].events + EventsOf(other, grown)
    {
      assert EventsOf(other, grown) == EventsOf(other, events) + (if id == other then [LastEvent(row)] else []);
    }
  }

  ghost predicate Distinct(ids: seq<Id>) {
    forall i, j | 0 <= i < j < |ids| :: ids[i] != ids[j]
  }

  function Elements(ids: seq<Id>): set<Id> {
    set id | id in ids
  }

  lemma ReachedIds(ids: seq<Id>, accepted: nat)
    ensures var reached := Elements(ids[..if accepted < |ids| then accepted else |ids|]);
      reached <= Elements(ids) && (|ids| <= accepted ==> reached == Elements(ids))
  {
    assert ids[..|ids|] == ids;
  }

  lemma AllQueuedEnded(rows: Rows, now: int)
    ensures QueuedIds(rows) <= IncompleteIds(rows)
    ensures var after := EndAll(rows, QueuedIds(rows), Cancelled, CancelledBy(None), now);
      after == Apply(rows, EventLog.CancelQueued(now)) && QueuedIds(after) == {}
  {
  }

  lemma AllIncompleteEnded(rows: Rows, now: int)
    ensures var after := EndAll(rows, IncompleteIds(rows), Interrupted, InterruptedBy(RESTARTED), now);
      after == Apply(rows, EventLog.ReconcileIncomplete(now)) && IncompleteIds(after) == {}
  {
  }

  lemma ElementsNext(ids: seq<Id>, i: nat)
    requires Distinct(ids) && i < |ids|
    ensures ids[i] in Elements(ids) && ids[i] !in Elements(ids[..i]) && Elements(ids[..i]) <= Elements(ids)
    ensures Elements(ids[..i + 1]) == Elements(ids[..i]) + {ids[i]}
  {
    assert ids[..i + 1] == ids[..i] + [ids[i]];
  }

  lemma ElementsSnoc(ids: seq<Id>, id: Id)
    requires Distinct(ids) && id !in Elements(ids)
    ensures Distinct(ids + [id]) && Elements(ids + [id]) == Elements(ids) + {id}
  {
  }

  lemma EndStep(rows: Rows, table: Rows, events: seq<Event>, done: set<Id>, id: Id,
                state: ExecutionState, outcome: Outcome, now: int)
    requires done <= rows.Keys && id in rows && id !in done
    requires table == EndAll(rows, done, state, outcome, now) && EventsMatch(rows, table, events)
    ensures var row := Ended(id, table[id], state, outcome, now);
      && table[id := row] == EndAll(rows, done + {id}, state, outcome, now)
      && EventsMatch(rows, table[id := row], events + [LastEvent(row)])
  {
    EndAllNext(rows, done, id, state, outcome, now);
    EventsStep(rows, table, events, id, Ended(id, table[id], state, outcome, now));
  }

  lemma EndAllNext(rows: Rows, done: set<Id>, id: Id, state: ExecutionState, outcome: Outcome, now: int)
    requires done <= rows.Keys && id in rows && id !in done
    ensures EndAll(rows, done, state, outcome, now)[id] == rows[id]
    ensures EndAll(rows, done + {id}, state, outcome, now)
      == EndAll(rows, done, state, outcome, now)[id := Ended(id, rows[id], state, outcome, now)]
  {
  }
}
