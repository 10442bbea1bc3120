/** What retention cleanup removes (`prune` in src/store.rs). */
module Retention {
  import opened Model
  import opened EventLog

  /** The sum of the captured bytes of all executions. */
  ghost function Total(rows: Rows): nat {
    if rows == map[] then 0
    else
      var id :| id in rows;
      rows[id].execution.capturedBytes + Total(rows - {id})
  }

  lemma {:induction false} TotalWithout(rows: Rows, id: Id)
    requires id in rows
    ensures Total(rows) == rows[id].execution.capturedBytes + Total(rows - {id})
    decreases |rows|
  {
    var first :| first in rows && Total(rows) == rows[first].execution.capturedBytes + Total(rows - {first});
    if first != id {
      TotalWithout(rows - {first}, id);
      TotalWithout(rows - {id}, first);
      assert rows - {first} - {id} == rows - {id} - {first};
    }
  }

  function Without(rows: Rows, ids: seq<Id>): Rows {
    map id | id in rows && id !in ids :: rows[id]
  }

  function Only(rows: Rows, ids: set<Id>): Rows {
    map id | id in rows && id in ids :: rows[id]
  }

  /** Bytes are conserved: what is kept and what is removed add up to what there was. */
  lemma {:induction false} BytesAreConserved(rows: Rows, removed: set<Id>)
    ensures Total(rows) == Total(rows - removed) + Total(Only(rows, removed))
    decreases |rows|
  {
    if rows == map[] {
      assert rows - removed == map[] && Only(rows, removed) == map[];
    } else {
      var id :| id in rows;
      BytesAreConserved(rows - {id}, removed);
      TotalWithout(rows, id);
      if id in removed {
        assert rows - {id} - removed == rows - removed;
        assert Only(rows, removed) - {id} == Only(rows - {id}, removed);
        TotalWithout(Only(rows, removed), id);
      } else {
        assert rows - {id} - removed == rows - removed - {id};
        assert Only(rows, removed) == Only(rows - {id}, removed);
        TotalWithout(rows - removed, id);
      }
    }
  }

  function TerminalIds(rows: Rows): set<Id> {
    set id | id in rows && rows[id].execution.state.IsTerminal()
  }

  function ExpiredIds(rows: Rows, cutoff: int): set<Id> {
    set id | id in rows && rows[id].execution.state.IsTerminal() && EndTime(rows[id]) < cutoff
  }

  /** When a terminal execution ended. */
  function EndTime(row: Row): int {
    if row.execution.endedAt.Some? then row.execution.endedAt.value else 0
  }

  /** The terminal executions, each once, none before an older one. */
  ghost predicate OldestFirst(rows: Rows, order: seq<Id>) {
    && (forall i | 0 <= i < |order| :: order[i] in rows)
    && (forall id :: id in order <==> id in TerminalIds(rows))
    && (forall i, j | 0 <= i < j < |order| :: order[i] != order[j])
    && (forall i, j | 0 <= i < j < |order| :: EndTime(rows[order[i]]) <= EndTime(rows[order[j]]))
  }

  /** The same while some of them are still to be listed. */
  ghost predicate OldestSoFar(rows: Rows, order: seq<Id>, left: set<Id>) {
    && (forall i | 0 <= i < |order| :: order[i] in rows)
    && (forall id :: id in order <==> id in TerminalIds(rows) - left)
    && (forall i, j | 0 <= i < j < |order| :: order[i] != order[j])
    && (forall i, j | 0 <= i < j < |order| :: EndTime(rows[order[i]]) <= EndTime(rows[order[j]]))
    && (forall i, id | 0 <= i < |order| && id in left && id in rows :: EndTime(rows[order[i]]) <= EndTime(rows[id]))
  }

  lemma NextOldest(rows: Rows, order: seq<Id>, left: set<Id>, id: Id)
    requires OldestSoFar(rows, order, left) && left <= TerminalIds(rows) && id in left
    requires forall other | other in left && other in rows :: EndTime(rows[id]) <= EndTime(rows[other])
    ensures OldestSoFar(rows, order + [id], left - {id})
  {
    assert forall i | 0 <= i < |order| :: order[i] in order;
  }

  /** Removing the k oldest is what the byte limit asks for: each removal was still needed, and
      afterwards the limit holds or nothing removable is left. */
  ghost predicate EnoughRemoved(rows: Rows, order: seq<Id>, limit: nat, k: nat) {
    && k <= |order|
    && (forall j | 0 <= j < k :: Total(Without(rows, order[..j])) > limit)
    && (Total(Without(rows, order[..k])) <= limit || k == |order|)
  }

  /** The number of removals is determined by the order the rows are visited in. */
  lemma EnoughIsUnique(rows: Rows, order: seq<Id>, limit: nat, k: nat, l: nat)
    requires EnoughRemoved(rows, order, limit, k) && EnoughRemoved(rows, order, limit, l)
    ensures k == l
  {
  }

  lemma WithoutNext(rows: Rows, order: seq<Id>, k: nat)
    requires OldestFirst(rows, order) && k < |order|
    ensures order[k] in Without(rows, order[..k])
    ensures Without(rows, order[..k + 1]) == Without(rows, order[..k]) - {order[k]}
    ensures Total(Without(rows, order[..k])) ==
      rows[order[k]].execution.capturedBytes + Total(Without(rows, order[..k + 1]))
  {
    var before := Without(rows, order[..k]);
    assert order[k] in TerminalIds(rows);
    assert order[..k + 1] == order[..k] + [order[k]];
    assert forall i | 0 <= i < k :: order[..k][i] != order[k];
    TotalWithout(before, order[k]);
  }

  /** Part of the way: the oldest i executions are gone, and `excess` bytes are still too many. */
  ghost predicate Trimming(rows: Rows, order: seq<Id>, limit: nat, i: nat, table: Rows, excess: nat) {
    && i <= |order| && table == Without(rows, order[..i])
    && excess == (if Total(table) > limit then Total(table) - limit else 0)
    && forall j | 0 <= j < i :: Total(Without(rows, order[..j])) > limit
  }

  lemma TrimmingStarts(rows: Rows, order: seq<Id>, limit: nat)
    ensures Trimming(rows, order, limit, 0, rows, if Total(rows) > limit then Total(rows) - limit else 0)
  {
    assert Without(rows, order[..0]) == rows;
  }

  lemma TrimOne(rows: Rows, order: seq<Id>, limit: nat, i: nat, table: Rows, excess: nat)
    requires OldestFirst(rows, order) && i < |order| && Trimming(rows, order, limit, i, table, excess) && excess > 0
    ensures order[i] in table
    ensures var size := table[order[i]].execution.capturedBytes;
      Trimming(rows, order, limit, i + 1, table - {order[i]}, if excess > size then excess - size else 0)
  {
    WithoutNext(rows, order, i);
  }

  lemma TrimmingEnds(rows: Rows, order: seq<Id>, limit: nat, i: nat, table: Rows, excess: nat)
    requires Trimming(rows, order, limit, i, table, excess) && (i == |order| || excess == 0)
    ensures EnoughRemoved(rows, order, limit, i)
  {
  }

  lemma {:induction false} OldestExists(rows: Rows, ids: set<Id>)
    requires ids <= rows.Keys && ids != {}
    ensures exists id :: id in ids && forall other | other in ids :: EndTime(rows[id]) <= EndTime(rows[other])
    decreases |ids|
  {
    var some :| some in ids;
    if ids == {some} {
      assert forall other | other in ids :: EndTime(rows[some]) <= EndTime(rows[other]);
    } else {
      OldestExists(rows, ids - {some});
      var best :| best in ids - {some}
        && forall other | other in ids - {some} :: EndTime(rows[best]) <= EndTime(rows[other]);
      var winner := if EndTime(rows[some]) <= EndTime(rows[best]) then some else best;
      assert forall other | other in ids :: EndTime(rows[winner]) <= EndTime(rows[other]);
    }
  }
}
