/** The second pager, of the MCP server (src/mcp.rs): it spends a raw-byte budget over the pages
    that the daemon returns and hands its own cursor to the caller. */
module McpPaging {
  import opened Model
  import opened Paging

  const DEFAULT_OUTPUT_BYTES: nat := 256 * 1024
  const MAX_OUTPUT_BYTES: nat := 1024 * 1024

  function Distance(a: nat, b: nat): nat {
    if a <= b then b - a else a - b
  }

  /** The budget of a tool call: the legal value nearest to the wish. */
  function NormalizedMax(value: Option<nat>): (max: nat)
    ensures 1 <= max <= MAX_OUTPUT_BYTES
    ensures value.None? ==> max == DEFAULT_OUTPUT_BYTES
    ensures value.Some? ==> forall legal | 1 <= legal <= MAX_OUTPUT_BYTES ::
      Distance(max, value.value) <= Distance(legal, value.value)
  {
    var wanted := if value.Some? then value.value else DEFAULT_OUTPUT_BYTES;
    if wanted < 1 then 1 else if wanted > MAX_OUTPUT_BYTES then MAX_OUTPUT_BYTES else wanted
  }

  /** The longest run of events from the front that fits the budget. */
  ghost predicate FitsUpTo(events: seq<Event>, budget: nat, n: nat) {
    && n <= |events|
    && Bytes(events[..n]) <= budget
    && (n < |events| ==> Bytes(events[..n + 1]) > budget)
  }

  lemma {:induction false} BytesMonotonic(events: seq<Event>, m: nat, n: nat)
    requires m <= n <= |events|
    ensures Bytes(events[..m]) <= Bytes(events[..n])
    decreases n
  {
    if m < n {
      assert events[..n][..n - 1] == events[..n - 1];
      BytesMonotonic(events, m, n - 1);
    }
  }

  lemma FitsIsUnique(events: seq<Event>, budget: nat, m: nat, n: nat)
    requires FitsUpTo(events, budget, m) && FitsUpTo(events, budget, n)
    ensures m == n
  {
    if m < n {
      BytesMonotonic(events, m + 1, n);
    } else if n < m {
      BytesMonotonic(events, n + 1, m);
    }
  }

  function Fitting(events: seq<Event>, budget: nat): (n: nat)
    ensures FitsUpTo(events, budget, n)
  {
    assert events[..0] == [];
    Extend(events, budget, 0)
  }

  function Extend(events: seq<Event>, budget: nat, k: nat): (n: nat)
    requires k <= |events| && Bytes(events[..k]) <= budget
    ensures FitsUpTo(events, budget, n)
    decreases |events| - k
  {
    if k < |events| && Bytes(events[..k + 1]) <= budget then Extend(events, budget, k + 1) else k
  }

  lemma BytesNext(events: seq<Event>, i: nat)
    requires i < |events|
    ensures events[..i + 1] == events[..i] + [events[i]]
    ensures Bytes(events[..i + 1]) == Bytes(events[..i]) + events[i].Size()
  {
    assert events[..i + 1][..i] == events[..i];
  }

  /** The conversion loop stops at the first event that no longer fits and keeps the cursor there. */
  method ConvertEvents(events: seq<Event>, remaining: nat, cursor: nat)
    returns (converted: seq<Event>, stopped: bool, left: nat, next: nat)
    ensures converted == events[..Fitting(events, remaining)]
    ensures stopped <==> converted != events
    ensures left == remaining - Bytes(converted)
    ensures next == if converted == [] then cursor else converted[|converted| - 1].seqNo
  {
    converted, stopped, left, next := [], false, remaining, cursor;
    assert events[..0] == [];
    var i := 0;
    while i < |events|
      invariant i <= |events| && converted == events[..i] && !stopped
      invariant left + Bytes(converted) == remaining
      invariant next == if converted == [] then cursor else converted[|converted| - 1].seqNo
    {
      BytesNext(events, i);
      if events[i].Size() > left {
        FitsIsUnique(events, remaining, i, Fitting(events, remaining));
        stopped := true;
        return;
      }
      left := left - events[i].Size();
      next := events[i].seqNo;
      converted := converted + [events[i]];
      i := i + 1;
    }
    FitsIsUnique(events, remaining, |events|, Fitting(events, remaining));
  }

  datatype ToolPage = ToolPage(events: seq<Event>, nextSeq: nat, hasMore: bool)

  /** What the tool makes of one page of the daemon under a budget. */
  function Converted(page: Page, after: nat, budget: nat): ToolPage {
    var n := Fitting(page.events, budget);
    var next := if n == 0 then after else page.events[n - 1].seqNo;
    ToolPage(page.events[..n], next, page.hasMore || n < |page.events| || next < page.nextSeq)
  }

  ghost predicate ExactToolPage(page: ToolPage, log: seq<Event>, after: nat) {
    && after <= page.nextSeq <= |log|
    && page.events == log[after..page.nextSeq]
    && (page.hasMore <==> page.nextSeq < |log|)
  }

  /** The tool's page is again an exact segment, within budget, and reports more exactly when there
      is more; it gets past its cursor unless the next event alone exceeds the budget. */
  lemma ConvertedIsExact(page: Page, log: seq<Event>, after: nat, budget: nat)
    requires Contiguous(log) && ExactPage(page, log, after)
    ensures var tool := Converted(page, after, budget);
      && ExactToolPage(tool, log, after)
      && Bytes(tool.events) <= budget
      && (page.events != [] && log[after].Size() <= budget ==> tool.nextSeq > after)
  {
    var n := Fitting(page.events, budget);
    if n > 0 {
      assert page.events[n - 1] == log[after + n - 1];
    } else if page.events != [] {
      assert page.events[..1] == [log[after]];
      assert Bytes([log[after]]) == Bytes([log[after]][..0]) + log[after].Size();
    }
    assert page.events[..n] == log[after..after + n];
  }

  /** `loom_read` of one snapshot. */
  function ToolRead(snapshot: Snapshot, after: nat, max: nat): ToolPage {
    Converted(ReadPage(snapshot.execution, snapshot.log, after, max), after, max)
  }

  /** A read that reports more advances the cursor exactly when the next event fits the budget, so a
      caller that follows the cursor is stuck at the first event larger than its budget. */
  lemma ReadAdvances(snapshot: Snapshot, after: nat, max: nat)
    requires Served(snapshot.execution, snapshot.log) && after <= |snapshot.log|
    ensures ExactToolPage(ToolRead(snapshot, after, max), snapshot.log, after)
    ensures Bytes(ToolRead(snapshot, after, max).events) <= max
    ensures ToolRead(snapshot, after, max).hasMore && after < |snapshot.log| ==>
      (ToolRead(snapshot, after, max).nextSeq > after <==> snapshot.log[after].Size() <= max)
  {
    PageIsExact(snapshot.execution, snapshot.log, after, max);
    var page := ReadPage(snapshot.execution, snapshot.log, after, max);
    ConvertedIsExact(page, snapshot.log, after, max);
    var n := Fitting(page.events, max);
    if after < |snapshot.log| && n > 0 {
      BytesMonotonic(page.events, 1, n);
      assert page.events[..1] == [snapshot.log[after]];
      assert Bytes([snapshot.log[after]]) == Bytes([snapshot.log[after]][..0]) + snapshot.log[after].Size();
    }
  }

  /** Every event fits the budget: supervisor chunks are at most 16 KiB. */
  ghost predicate AllFit(log: seq<Event>, max: nat) {
    forall i | 0 <= i < |log| :: log[i].Size() <= max
  }

  /** `loom_read` over and over from the returned cursor while it reports more. */
  function ReadOnwards(snapshot: Snapshot, after: nat, max: nat): seq<Event>
    requires Served(snapshot.execution, snapshot.log) && AllFit(snapshot.log, max) && after <= |snapshot.log|
    decreases |snapshot.log| - after
  {
    ReadAdvances(snapshot, after, max);
    var page := ToolRead(snapshot, after, max);
    if page.hasMore then page.events + ReadOnwards(snapshot, page.nextSeq, max) else page.events
  }

  lemma {:induction false} ReadOnwardsIsTheSuffix(snapshot: Snapshot, after: nat, max: nat)
    requires Served(snapshot.execution, snapshot.log) && AllFit(snapshot.log, max) && after <= |snapshot.log|
    ensures ReadOnwards(snapshot, after, max) == snapshot.log[after..|snapshot.log|]
    decreases |snapshot.log| - after
  {
    ReadAdvances(snapshot, after, max);
    var page := ToolRead(snapshot, after, max);
    if page.hasMore {
      ReadOnwardsIsTheSuffix(snapshot, page.nextSeq, max);
      JoinSlices(snapshot.log, after, page.nextSeq, |snapshot.log|);
    }
  }

  /** One answer of the daemon's `wait`: the snapshot it finally read, and whether it timed out. */
  datatype Wait = Wait(snapshot: Snapshot, timedOut: bool)

  ghost predicate GrowingWaits(first: Snapshot, waits: seq<Wait>) {
    && Served(first.execution, first.log)
    && (forall i | 0 <= i < |waits| ::
          Served(waits[i].snapshot.execution, waits[i].snapshot.log) && first.log <= waits[i].snapshot.log)
    && (forall i, j | 0 <= i <= j < |waits| :: waits[i].snapshot.log <= waits[j].snapshot.log)
  }

  /** The loop of `loom_run`: it spends one budget over successive waits, until the execution is
      terminal, the deadline passes (`waits` is used up) or the budget is. */
  method RunTool(created: Snapshot, waits: seq<Wait>, max: nat)
    returns (events: seq<Event>, next: nat, hasMore: bool, current: Snapshot)
    requires GrowingWaits(created, waits) && created.log == []
    ensures current == created || exists i :: 0 <= i < |waits| && current == waits[i].snapshot
    ensures next <= |current.log| && events == current.log[..next]
    ensures Bytes(events) <= max
    ensures hasMore <==> next < |current.log| || (!current.execution.state.IsTerminal() && Bytes(events) == max)
  {
    events, next, hasMore, current := [], 0, false, created;
    var remaining := max;
    var i := 0;
    while !current.execution.state.IsTerminal() && i < |waits| && remaining > 0
      invariant i <= |waits|
      invariant current == if i == 0 then created else waits[i - 1].snapshot
      invariant next <= |current.log| && events == current.log[..next]
      invariant Bytes(events) + remaining == max
      invariant hasMore <==> next < |current.log|
    {
      var snapshot := waits[i].snapshot;
      var stopped;
      events, next, hasMore, remaining, stopped := TakeWait(current.log, snapshot, events, next, remaining);
      current := snapshot;
      i := i + 1;
      if waits[i - 1].timedOut || stopped {
        break;
      }
    }
    hasMore := hasMore || (!current.execution.state.IsTerminal() && remaining == 0);
  }

  /** The body of the loop: converts the page one wait returned. */
  method TakeWait(before: seq<Event>, snapshot: Snapshot, events: seq<Event>, next: nat, remaining: nat)
    returns (all: seq<Event>, cursor: nat, hasMore: bool, left: nat, stopped: bool)
    requires Served(snapshot.execution, snapshot.log) && before <= snapshot.log
    requires next <= |before| && events == before[..next]
    ensures cursor <= |snapshot.log| && all == snapshot.log[..cursor]
    ensures Bytes(all) + left == Bytes(events) + remaining
    ensures hasMore <==> cursor < |snapshot.log|
  {
    var page := ReadPage(snapshot.execution, snapshot.log, next, remaining);
    WaitStep(before, snapshot, events, next, remaining);
    var converted;
    converted, stopped, left, cursor := ConvertEvents(page.events, remaining, next);
    hasMore := page.hasMore || stopped || cursor < page.nextSeq;
    assert ToolPage(converted, cursor, hasMore) == Converted(page, next, remaining);
    all := events + converted;
  }

  /** What one more wait adds, given the prefix that is already there. */
  lemma WaitStep(before: seq<Event>, snapshot: Snapshot, events: seq<Event>, next: nat, remaining: nat)
    requires Served(snapshot.execution, snapshot.log) && before <= snapshot.log
    requires next <= |before| && events == before[..next]
    ensures var tool := Converted(ReadPage(snapshot.execution, snapshot.log, next, remaining), next, remaining);
      && ExactToolPage(tool, snapshot.log, next)
      && events + tool.events == snapshot.log[..tool.nextSeq]
      && Bytes(events + tool.events) == Bytes(events) + Bytes(tool.events)
  {
    PageIsExact(snapshot.execution, snapshot.log, next, remaining);
    ConvertedIsExact(ReadPage(snapshot.execution, snapshot.log, next, remaining), snapshot.log, next, remaining);
    var tool := Converted(ReadPage(snapshot.execution, snapshot.log, next, remaining), next, remaining);
    PrefixGrows(before, snapshot.log, events, next, tool.events, tool.nextSeq);
    BytesConcat(events, tool.events);
  }

  lemma PrefixGrows(before: seq<Event>, log: seq<Event>, a: seq<Event>, m: nat, b: seq<Event>, n: nat)
    requires before <= log && m <= |before| && a == before[..m]
    requires m <= n <= |log| && b == log[m..n]
    ensures a + b == log[..n]
  {
  }

  lemma {:induction false} BytesConcat(a: seq<Event>, b: seq<Event>)
    ensures Bytes(a + b) == Bytes(a) + Bytes(b)
    decreases |b|
  {
    if b == [] {
      assert a + b == a;
    } else {
      assert (a + b)[..|a + b| - 1] == a + b[..|b| - 1];
      BytesConcat(a, b[..|b| - 1]);
    }
  }

  /** One `loom_read` per snapshot, each from the cursor the one before returned. */
  function ToolReads(snapshots: seq<Snapshot>, budgets: seq<nat>, after: nat): Progress
    requires |budgets| == |snapshots|
  {
    if snapshots == [] then Progress([], after, true)
    else
      var n := |snapshots| - 1;
      var before := ToolReads(snapshots[..n], budgets[..n], after);
      var page := ToolRead(snapshots[n], before.cursor, budgets[n]);
      Progress(before.events + page.events, page.nextSeq, page.hasMore)
  }

  lemma ToolReadMore(snapshot: Snapshot, log: seq<Event>, before: Progress, after: nat, budget: nat)
    requires Served(snapshot.execution, snapshot.log) && log <= snapshot.log
    requires after <= before.cursor <= |log| && before.events == log[after..before.cursor]
    ensures var page := ToolRead(snapshot, before.cursor, budget);
      && after <= page.nextSeq <= |snapshot.log|
      && before.events + page.events == snapshot.log[after..page.nextSeq]
      && (page.hasMore <==> page.nextSeq < |snapshot.log|)
  {
    ReadAdvances(snapshot, before.cursor, budget);
    PrefixSlice(log, snapshot.log, after, before.cursor);
    JoinSlices(snapshot.log, after, before.cursor, ToolRead(snapshot, before.cursor, budget).nextSeq);
  }

  /** The tool's reads of a growing log are exact, as the daemon's are. */
  lemma {:induction false} ToolReadsAreExact(snapshots: seq<Snapshot>, budgets: seq<nat>, after: nat)
    requires |budgets| == |snapshots| > 0 && Growing(snapshots) && after <= |snapshots[0].log|
    ensures var p, log := ToolReads(snapshots, budgets, after), snapshots[|snapshots| - 1].log;
      && after <= p.cursor <= |log|
      && p.events == log[after..p.cursor]
      && (p.hasMore <==> p.cursor < |log|)
    decreases |snapshots|
  {
    var n := |snapshots| - 1;
    GrowingInit(snapshots);
    if n > 0 {
      ToolReadsAreExact(snapshots[..n], budgets[..n], after);
      var before := ToolReads(snapshots[..n], budgets[..n], after);
      ToolReadMore(snapshots[n], snapshots[n - 1].log, before, after, budgets[n]);
    } else {
      assert ToolReads(snapshots[..n], budgets[..n], after) == Progress([], after, true);
      ToolReadMore(snapshots[n], snapshots[n].log, Progress([], after, true), after, budgets[n]);
    }
  }

  lemma Completed(log: seq<Event>, front: seq<Event>, n: nat, back: seq<Event>)
    requires n <= |log| && front == log[..n] && back == log[n..|log|]
    ensures front + back == log
  {
  }

  /** Two levels of paging compose: what `loom_run` returned, followed by what repeated `loom_read`
      returns from its cursor while the log grows, is the log up to the last cursor, each event once;
      and reading on when it no longer grows yields all of it. */
  lemma RunThenReadIsTheLog(run: seq<Event>, next: nat, seen: Snapshot, snapshots: seq<Snapshot>, budgets: seq<nat>,
                            max: nat)
    requires next <= |seen.log| && run == seen.log[..next]
    requires |budgets| == |snapshots| > 0 && Growing(snapshots) && seen.log <= snapshots[0].log
    ensures var p, final := ToolReads(snapshots, budgets, next), snapshots[|snapshots| - 1];
      && next <= p.cursor <= |final.log| && (p.hasMore <==> p.cursor < |final.log|)
      && run + p.events == final.log[..p.cursor]
      && (AllFit(final.log, max) ==> run + p.events + ReadOnwards(final, p.cursor, max) == final.log)
  {
    var p, final := ToolReads(snapshots, budgets, next), snapshots[|snapshots| - 1];
    GrowingInit(snapshots);
    ToolReadsAreExact(snapshots, budgets, next);
    PrefixGrows(seen.log, final.log, run, next, p.events, p.cursor);
    if AllFit(final.log, max) {
      ReadOnwardsIsTheSuffix(final, p.cursor, max);
      Completed(final.log, run + p.events, p.cursor, ReadOnwards(final, p.cursor, max));
    }
  }
}
