/** One page of a log (`read_output` in src/store.rs), and what reading page after page yields. */
module Paging {
  import opened Model

  const ROW_LIMIT: nat := 4096

  /** The unsigned cursor is bound to the query as a signed 64-bit integer. */
  function AsI64(cursor: nat): int {
    var bits := cursor % TWO_64;
    if bits < TWO_63 then bits else bits - TWO_64
  }

  ghost predicate Contiguous(log: seq<Event>) {
    forall i | 0 <= i < |log| :: log[i].seqNo == i + 1
  }

  /** What the WHERE clause selects. */
  function Selected(log: seq<Event>, after: int): seq<Event> {
    if log == [] then []
    else
      var last := log[|log| - 1];
      Selected(log[..|log| - 1], after) + (if last.seqNo > after then [last] else [])
  }

  function Limited(events: seq<Event>): seq<Event> {
    if |events| <= ROW_LIMIT then events else events[..ROW_LIMIT]
  }

  function Bytes(events: seq<Event>): nat {
    if events == [] then 0 else Bytes(events[..|events| - 1]) + events[|events| - 1].Size()
  }

  /** The rows a page takes: the first always, every further one only while the budget lasts. */
  ghost predicate IsPageLength(rows: seq<Event>, max: nat, n: nat) {
    && n <= |rows|
    && (rows != [] ==> n >= 1)
    && (forall k | 1 < k <= n :: Bytes(rows[..k]) <= max)
    && (1 <= n < |rows| ==> Bytes(rows[..n + 1]) > max)
  }

  lemma PageLengthIsUnique(rows: seq<Event>, max: nat, m: nat, n: nat)
    requires IsPageLength(rows, max, m) && IsPageLength(rows, max, n)
    ensures m == n
  {
  }

  function PageLength(rows: seq<Event>, max: nat): (n: nat)
    ensures IsPageLength(rows, max, n)
  {
    if rows == [] then 0 else Grow(rows, max, 1)
  }

  function Grow(rows: seq<Event>, max: nat, k: nat): (n: nat)
    requires 1 <= k <= |rows|
    requires forall j | 1 < j <= k :: Bytes(rows[..j]) <= max
    ensures IsPageLength(rows, max, n)
    decreases |rows| - k
  {
    if k < |rows| && Bytes(rows[..k + 1]) <= max then Grow(rows, max, k + 1) else k
  }

  datatype Page = Page(execution: Execution, events: seq<Event>, nextSeq: nat, hasMore: bool)

  function PageOf(execution: Execution, rows: seq<Event>, after: nat, max: nat): Page {
    var n := PageLength(rows, max);
    var next := if n == 0 then after else rows[n - 1].seqNo;
    Page(execution, rows[..n], next, n < |rows| || next < execution.lastSeq)
  }

  function ReadPage(execution: Execution, log: seq<Event>, after: nat, max: nat): Page {
    PageOf(execution, Limited(Selected(log, AsI64(after))), after, max)
  }

  // ---------------------------------------------------------------------------------------------
  // One page
  // ---------------------------------------------------------------------------------------------

  /** On a contiguous log the query yields a suffix. */
  lemma {:induction false} SelectedIsSuffix(log: seq<Event>, after: int)
    requires Contiguous(log)
    ensures Selected(log, after) ==
      log[if after <= 0 then 0 else if after <= |log| then after else |log|..]
    decreases |log|
  {
    if log != [] {
      SelectedIsSuffix(log[..|log| - 1], after);
      SuffixGrows(log, if after <= 0 then 0 else if after <= |log| then after else |log|);
    }
  }

  lemma SuffixGrows(log: seq<Event>, k: nat)
    requires log != [] && k <= |log|
    ensures k < |log| ==> log[k..] == log[..|log| - 1][k..] + [log[|log| - 1]]
    ensures k == |log| ==> log[k..] == []
  {
  }

  /** The condition under which a log and its row are a snapshot the store can serve. */
  ghost predicate Served(execution: Execution, log: seq<Event>) {
    Contiguous(log) && execution.lastSeq == |log| < TWO_63
  }

  /** A page is the part of the log between its two cursors: nothing skipped, nothing twice. */
  ghost predicate ExactPage(page: Page, log: seq<Event>, after: nat) {
    && after <= page.nextSeq <= |log|
    && page.events == log[after..page.nextSeq]
    && (page.hasMore <==> page.nextSeq < |log|)
    && (page.hasMore ==> after < page.nextSeq)
  }

  lemma PageOfIsExact(execution: Execution, log: seq<Event>, rows: seq<Event>, after: nat, max: nat)
    requires Served(execution, log) && after + |rows| <= |log| && rows == log[after..after + |rows|]
    requires rows == [] ==> after == |log|
    ensures ExactPage(PageOf(execution, rows, after, max), log, after)
  {
    var n := PageLength(rows, max);
    if n > 0 {
      assert rows[n - 1] == log[after + n - 1];
    }
    assert rows[..n] == log[after..after + n];
  }

  lemma PageIsExact(execution: Execution, log: seq<Event>, after: nat, max: nat)
    requires Served(execution, log) && after <= |log|
    ensures ExactPage(ReadPage(execution, log, after, max), log, after)
  {
    SelectedIsSuffix(log, after);
    var rows := Limited(log[after..]);
    assert AsI64(after) == after && rows == log[after..after + |rows|];
    PageOfIsExact(execution, log, rows, after, max);
  }

  /** A page exceeds its budget only by holding a single oversized event. */
  lemma PageBudget(execution: Execution, log: seq<Event>, after: nat, max: nat)
    ensures var page := ReadPage(execution, log, after, max);
      Bytes(page.events) <= max || |page.events| == 1
  {
    var rows := Limited(Selected(log, AsI64(after)));
    var n := PageLength(rows, max);
    assert n > 1 ==> Bytes(rows[..n]) <= max;
  }

  lemma WrappedPageStartsOver(execution: Execution, log: seq<Event>, after: nat, max: nat)
    requires Served(execution, log) && TWO_63 <= after < TWO_64 && log != []
    ensures ReadPage(execution, log, after, max).events != []
    ensures ReadPage(execution, log, after, max).events[0].seqNo == 1
  {
    assert AsI64(after) < 0;
    SelectedIsSuffix(log, AsI64(after));
    assert Limited(Selected(log, AsI64(after)))[0] == log[0];
  }

  lemma {:induction false} SelectedAreLater(log: seq<Event>, after: int, i: nat)
    requires i < |Selected(log, after)|
    ensures Selected(log, after)[i].seqNo > after
    decreases |log|
  {
    var init := Selected(log[..|log| - 1], after);
    if i < |init| {
      SelectedAreLater(log[..|log| - 1], after, i);
    }
  }

  /** A page holds only events after the cursor exactly when the cursor fits in 63 bits or the log
      is empty: a larger one turns negative in the query and the log is served again from its start. */
  lemma CursorWrapsAround(execution: Execution, log: seq<Event>, after: nat, max: nat)
    requires Served(execution, log) && after < TWO_64
    ensures var events := ReadPage(execution, log, after, max).events;
      (forall i | 0 <= i < |events| :: events[i].seqNo > after) <==> after < TWO_63 || log == []
  {
    if after < TWO_63 {
      forall i | 0 <= i < |ReadPage(execution, log, after, max).events|
        ensures ReadPage(execution, log, after, max).events[i].seqNo > after
      {
        SelectedAreLater(log, AsI64(after), i);
      }
    } else if log != [] {
      WrappedPageStartsOver(execution, log, after, max);
    }
  }

  // ---------------------------------------------------------------------------------------------
  // Page after page, while the log grows
  // ---------------------------------------------------------------------------------------------

  datatype Snapshot = Snapshot(execution: Execution, log: seq<Event>)

  ghost predicate Growing(snapshots: seq<Snapshot>) {
    && (forall i | 0 <= i < |snapshots| :: Served(snapshots[i].execution, snapshots[i].log))
    && (forall i, j | 0 <= i <= j < |snapshots| :: snapshots[i].log <= snapshots[j].log)
  }

  datatype Progress = Progress(events: seq<Event>, cursor: nat, hasMore: bool)

  /** A reader that takes one page of each snapshot, continuing from the cursor of the last. */
  function ReadEach(snapshots: seq<Snapshot>, budgets: seq<nat>, after: nat): Progress
    requires |budgets| == |snapshots|
  {
    if snapshots == [] then Progress([], after, true)
    else
      var n := |snapshots| - 1;
      var before := ReadEach(snapshots[..n], budgets[..n], after);
      var page := ReadPage(snapshots[n].execution, snapshots[n].log, before.cursor, budgets[n]);
      Progress(before.events + page.events, page.nextSeq, page.hasMore)
  }

  /** However the log grows between pages and whatever the budgets, the reader has seen exactly the
      events between its first cursor and its last, and a page without more leaves it caught up. */
  lemma {:induction false} ReadingIsExact(snapshots: seq<Snapshot>, budgets: seq<nat>, after: nat)
    requires |budgets| == |snapshots| > 0 && Growing(snapshots) && after <= |snapshots[0].log|
    ensures var p, log := ReadEach(snapshots, budgets, after), snapshots[|snapshots| - 1].log;
      && after <= p.cursor <= |log|
      && p.events == log[after..p.cursor]
      && (p.hasMore <==> p.cursor < |log|)
    decreases |snapshots|
  {
    var n := |snapshots| - 1;
    var before := ReadEach(snapshots[..n], budgets[..n], after);
    GrowingInit(snapshots);
    if n > 0 {
      ReadingIsExact(snapshots[..n], budgets[..n], after);
      PrefixSlice(snapshots[n - 1].log, snapshots[n].log, after, before.cursor);
    }
    ReadingMore(snapshots[n], before, after, budgets[n]);
  }

  lemma ReadingMore(snapshot: Snapshot, before: Progress, after: nat, budget: nat)
    requires Served(snapshot.execution, snapshot.log) && after <= before.cursor <= |snapshot.log|
    requires before.events == snapshot.log[after..before.cursor]
    ensures var page := ReadPage(snapshot.execution, snapshot.log, before.cursor, budget);
      && before.cursor <= page.nextSeq <= |snapshot.log|
      && before.events + page.events == snapshot.log[after..page.nextSeq]
      && (page.hasMore <==> page.nextSeq < |snapshot.log|)
  {
    PageIsExact(snapshot.execution, snapshot.log, before.cursor, budget);
    JoinSlices(snapshot.log, after, before.cursor,
               ReadPage(snapshot.execution, snapshot.log, before.cursor, budget).nextSeq);
  }

  lemma GrowingInit(snapshots: seq<Snapshot>)
    requires Growing(snapshots) && snapshots != []
    ensures var n := |snapshots| - 1;
      && Growing(snapshots[..n])
      && snapshots[0].log <= snapshots[n].log
      && (n > 0 ==> snapshots[n - 1].log <= snapshots[n].log)
  {
  }

  lemma PrefixSlice(a: seq<Event>, b: seq<Event>, from: nat, to: nat)
    requires a <= b && from <= to <= |a|
    ensures a[from..to] == b[from..to]
  {
  }

  /** Reading a log that no longer grows until no more is reported; it terminates, as the decreases
      clause shows, whatever the budgets. */
  function ReadAll(execution: Execution, log: seq<Event>, after: nat, budget: nat -> nat): seq<Event>
    requires Served(execution, log) && after <= |log|
    decreases |log| - after
  {
    PageIsExact(execution, log, after, budget(after));
    var page := ReadPage(execution, log, after, budget(after));
    if page.hasMore then page.events + ReadAll(execution, log, page.nextSeq, budget) else page.events
  }

  lemma {:induction false} ReadAllIsTheSuffix(execution: Execution, log: seq<Event>, after: nat, budget: nat -> nat)
    requires Served(execution, log) && after <= |log|
    ensures ReadAll(execution, log, after, budget) == log[after..|log|]
    decreases |log| - after
  {
    PageIsExact(execution, log, after, budget(after));
    var page := ReadPage(execution, log, after, budget(after));
    if page.hasMore {
      ReadAllIsTheSuffix(execution, log, page.nextSeq, budget);
      JoinSlices(log, after, page.nextSeq, |log|);
    }
  }
}
