/** Statistics over a window of executions (src/store.rs). The executions table is a sequence here:
    counting and ranking do not depend on its order. */
module Stats {
  import opened Model

  // ---------------------------------------------------------------------------------------------
  // Status counts
  // ---------------------------------------------------------------------------------------------

  datatype Status =
    | IsQueued | IsRunning | ExitedZero | ExitedNonzero | WasSignaled | SpawnFailed
    | WasCancelled | WasInterrupted | UnknownTerminal

  predicate FinishedWith(e: Execution, status: Status) {
    e.state == Finished && e.outcome.Some? &&
    match e.outcome.value
    case Exited(code) => status == (if code == 0 then ExitedZero else ExitedNonzero)
    case Signaled(_) => status == WasSignaled
    case SpawnError(_) => status == SpawnFailed
    case CancelledBy(_) => status == WasCancelled
    case InterruptedBy(_) => status == WasInterrupted
  }

  /** The condition under which one column counts an execution. */
  predicate CountsAs(e: Execution, status: Status) {
    match status
    case IsQueued => e.state == Queued
    case IsRunning => e.state == Running
    case WasCancelled => e.state == Cancelled || FinishedWith(e, WasCancelled)
    case WasInterrupted => e.state == Interrupted || FinishedWith(e, WasInterrupted)
    case UnknownTerminal => e.state == Finished && e.outcome.None?
    case _ => FinishedWith(e, status)
  }

  function Count(rows: seq<Execution>, status: Status): nat {
    if rows == [] then 0
    else Count(rows[..|rows| - 1], status) + (if CountsAs(rows[|rows| - 1], status) then 1 else 0)
  }

  function StatusOf(e: Execution): (status: Status)
    ensures forall other :: CountsAs(e, other) <==> other == status
  {
    match e.state
    case Queued => IsQueued
    case Running => IsRunning
    case Cancelled => WasCancelled
    case Interrupted => WasInterrupted
    case Finished =>
      if e.outcome.None? then UnknownTerminal
      else match e.outcome.value
      case Exited(code) => if code == 0 then ExitedZero else ExitedNonzero
      case Signaled(_) => WasSignaled
      case SpawnError(_) => SpawnFailed
      case CancelledBy(_) => WasCancelled
      case InterruptedBy(_) => WasInterrupted
  }

  datatype StatusCounts = StatusCounts(
    queued: nat, running: nat, exitedZero: nat, exitedNonzero: nat, signaled: nat, spawnError: nat,
    cancelled: nat, interrupted: nat, unknownTerminal: nat)
  {
    function Sum(): nat {
      queued + running + exitedZero + exitedNonzero + signaled + spawnError + cancelled + interrupted + unknownTerminal
    }
  }

  function StatusCountsOf(rows: seq<Execution>): StatusCounts {
    StatusCounts(Count(rows, IsQueued), Count(rows, IsRunning), Count(rows, ExitedZero), Count(rows, ExitedNonzero),
                 Count(rows, WasSignaled), Count(rows, SpawnFailed), Count(rows, WasCancelled),
                 Count(rows, WasInterrupted), Count(rows, UnknownTerminal))
  }

  /** The nine columns count every execution exactly once. */
  lemma {:induction false} StatusesPartition(rows: seq<Execution>)
    ensures StatusCountsOf(rows).Sum() == |rows|
    decreases |rows|
  {
    if rows != [] {
      StatusesPartition(rows[..|rows| - 1]);
      var status := StatusOf(rows[|rows| - 1]);
    }
  }

  // ---------------------------------------------------------------------------------------------
  // Initiators
  // ---------------------------------------------------------------------------------------------

  datatype Initiators = Initiators(kind: string, count: nat)

  function KindOf(e: Execution): string {
    if e.initiatorKind == "" then "unknown" else e.initiatorKind
  }

  function OfKind(rows: seq<Execution>, kind: string): nat {
    if rows == [] then 0
    else OfKind(rows[..|rows| - 1], kind) + (if KindOf(rows[|rows| - 1]) == kind then 1 else 0)
  }

  /** The order of the kinds: by code points, a beginning first. */
  predicate Less(a: string, b: string) {
    b != "" && (a == "" || a[0] < b[0] || (a[0] == b[0] && Less(a[1..], b[1..])))
  }

  lemma {:induction false} LessIsStrict(a: string, b: string)
    ensures a != b <==> Less(a, b) || Less(b, a)
    ensures !(Less(a, b) && Less(b, a))
    decreases |a|
  {
    if a != "" && b != "" && a[0] == b[0] {
      LessIsStrict(a[1..], b[1..]);
      assert a == [a[0]] + a[1..] && b == [b[0]] + b[1..];
    }
  }

  lemma {:induction false} LessIsTransitive(a: string, b: string, c: string)
    requires Less(a, b) && Less(b, c)
    ensures Less(a, c)
    decreases |a|
  {
    if a != "" && a[0] == b[0] == c[0] { LessIsTransitive(a[1..], b[1..], c[1..]); }
  }

  function Tally(groups: seq<Initiators>, kind: string): seq<Initiators> {
    if groups == [] || Less(kind, groups[0].kind) then [Initiators(kind, 1)] + groups
    else if groups[0].kind == kind then [Initiators(kind, groups[0].count + 1)] + groups[1..]
    else [groups[0]] + Tally(groups[1..], kind)
  }

  function ByInitiator(rows: seq<Execution>): seq<Initiators> {
    if rows == [] then [] else Tally(ByInitiator(rows[..|rows| - 1]), KindOf(rows[|rows| - 1]))
  }

  function Total(groups: seq<Initiators>): nat {
    if groups == [] then 0 else groups[0].count + Total(groups[1..])
  }

  function CountOf(groups: seq<Initiators>, kind: string): nat {
    if groups == [] then 0 else (if groups[0].kind == kind then groups[0].count else 0) + CountOf(groups[1..], kind)
  }

  ghost predicate Sorted(groups: seq<Initiators>) {
    forall i, j | 0 <= i < j < |groups| :: Less(groups[i].kind, groups[j].kind)
  }

  lemma {:induction false} TallyCounts(groups: seq<Initiators>, kind: string, other: string)
    ensures Total(Tally(groups, kind)) == Total(groups) + 1
    ensures CountOf(Tally(groups, kind), other) == CountOf(groups, other) + (if other == kind then 1 else 0)
    decreases |groups|
  {
    if groups != [] && !Less(kind, groups[0].kind) && groups[0].kind != kind { TallyCounts(groups[1..], kind, other); }
  }

  ghost predicate AllAfter(kind: string, groups: seq<Initiators>) {
    forall i | 0 <= i < |groups| :: Less(kind, groups[i].kind)
  }

  lemma SortedFront(group: Initiators, rest: seq<Initiators>)
    requires Sorted(rest) && AllAfter(group.kind, rest)
    ensures Sorted([group] + rest)
  {
  }

  lemma BeforeAll(kind: string, groups: seq<Initiators>)
    requires Sorted(groups) && (groups != [] ==> Less(kind, groups[0].kind))
    ensures AllAfter(kind, groups)
  {
    forall i | 0 < i < |groups|
      ensures Less(kind, groups[i].kind)
    {
      LessIsTransitive(kind, groups[0].kind, groups[i].kind);
    }
  }

  lemma {:induction false} TallyStaysAfter(low: string, groups: seq<Initiators>, kind: string)
    requires AllAfter(low, groups) && Less(low, kind)
    ensures AllAfter(low, Tally(groups, kind))
    decreases |groups|
  {
    if groups != [] && !Less(kind, groups[0].kind) && groups[0].kind != kind {
      TallyStaysAfter(low, groups[1..], kind);
    }
  }

  lemma {:induction false} TallySorts(groups: seq<Initiators>, kind: string)
    requires Sorted(groups)
    ensures Sorted(Tally(groups, kind))
    decreases |groups|
  {
    if groups == [] || Less(kind, groups[0].kind) {
      BeforeAll(kind, groups);
      SortedFront(Initiators(kind, 1), groups);
    } else if groups[0].kind != kind {
      LessIsStrict(groups[0].kind, kind);
      TallySorts(groups[1..], kind);
      TallyStaysAfter(groups[0].kind, groups[1..], kind);
      SortedFront(groups[0], Tally(groups[1..], kind));
    }
  }

  /** Every execution is counted once, under its kind of initiator; the kinds are in order. */
  lemma {:induction false} InitiatorsPartition(rows: seq<Execution>, kind: string)
    ensures Total(ByInitiator(rows)) == |rows| && Sorted(ByInitiator(rows))
    ensures CountOf(ByInitiator(rows), kind) == OfKind(rows, kind)
    decreases |rows|
  {
    if rows != [] {
      var init, last := rows[..|rows| - 1], KindOf(rows[|rows| - 1]);
      InitiatorsPartition(init, kind);
      TallyCounts(ByInitiator(init), last, kind);
      TallySorts(ByInitiator(init), last);
    }
  }

  // ---------------------------------------------------------------------------------------------
  // Durations
  // ---------------------------------------------------------------------------------------------

  predicate HasDuration(e: Execution) {
    e.state.IsTerminal() && e.startedAt.Some? && e.endedAt.Some?
  }

  /** A clock that was set back gives no negative duration. */
  function Duration(e: Execution): nat
    requires HasDuration(e)
  {
    if e.endedAt.value >= e.startedAt.value then e.endedAt.value - e.startedAt.value else 0
  }

  function Insert(sorted: seq<nat>, d: nat): seq<nat> {
    if sorted == [] || d <= sorted[0] then [d] + sorted else [sorted[0]] + Insert(sorted[1..], d)
  }

  /** The durations in the order in which the rows are numbered. */
  function Ranked(rows: seq<Execution>): seq<nat> {
    if rows == [] then []
    else
      var e, rest := rows[|rows| - 1], Ranked(rows[..|rows| - 1]);
      if HasDuration(e) then Insert(rest, Duration(e)) else rest
  }

  function Rank(percent: nat, n: nat): nat {
    (n * percent + 99) / 100
  }

  function Percentile(ranked: seq<nat>, percent: nat): Option<nat>
    requires percent <= 100
  {
    if ranked == [] || percent == 0 then None
    else
      RankInRange(percent, |ranked|);
      Some(ranked[Rank(percent, |ranked|) - 1])
  }

  lemma RankInRange(percent: nat, n: nat)
    requires 1 <= percent <= 100 && 1 <= n
    ensures 1 <= Rank(percent, n) <= n
    ensures 100 * (Rank(percent, n) - 1) < n * percent <= 100 * Rank(percent, n)
  {
    assert n <= n * percent <= n * 100;
  }

  ghost predicate Ascending(s: seq<nat>) {
    forall i, j | 0 <= i < j < |s| :: s[i] <= s[j]
  }

  function AtMost(s: seq<nat>, v: nat): nat {
    if s == [] then 0 else (if s[0] <= v then 1 else 0) + AtMost(s[1..], v)
  }

  /** How many executions took at most so long. */
  function Within(rows: seq<Execution>, v: nat): nat {
    if rows == [] then 0
    else
      var last := rows[|rows| - 1];
      Within(rows[..|rows| - 1], v) + (if HasDuration(last) && Duration(last) <= v then 1 else 0)
  }

  function Samples(rows: seq<Execution>): nat {
    if rows == [] then 0 else Samples(rows[..|rows| - 1]) + (if HasDuration(rows[|rows| - 1]) then 1 else 0)
  }

  lemma {:induction false} InsertAscends(sorted: seq<nat>, d: nat)
    requires Ascending(sorted)
    ensures Ascending(Insert(sorted, d)) && |Insert(sorted, d)| == |sorted| + 1
    ensures forall x | x in Insert(sorted, d) :: x == d || x in sorted
    decreases |sorted|
  {
    if sorted != [] && d > sorted[0] {
      InsertAscends(sorted[1..], d);
      var rest := Insert(sorted[1..], d);
      forall i | 0 <= i < |rest|
        ensures sorted[0] <= rest[i]
      {
        assert rest[i] in rest;
        if rest[i] != d {
          var j :| 0 <= j < |sorted[1..]| && sorted[1..][j] == rest[i];
          assert sorted[j + 1] == rest[i];
        }
      }
    }
  }

  lemma {:induction false} InsertCounts(sorted: seq<nat>, d: nat, v: nat)
    ensures AtMost(Insert(sorted, d), v) == AtMost(sorted, v) + (if d <= v then 1 else 0)
    decreases |sorted|
  {
    if sorted != [] && d > sorted[0] { InsertCounts(sorted[1..], d, v); }
  }

  /** Ranking keeps every sample and puts them in order. */
  lemma {:induction false} RankedIsSorted(rows: seq<Execution>, v: nat)
    ensures Ascending(Ranked(rows)) && |Ranked(rows)| == Samples(rows)
    ensures AtMost(Ranked(rows), v) == Within(rows, v)
    decreases |rows|
  {
    if rows != [] {
      var e, init := rows[|rows| - 1], rows[..|rows| - 1];
      RankedIsSorted(init, v);
      if HasDuration(e) {
        InsertAscends(Ranked(init), Duration(e));
        InsertCounts(Ranked(init), Duration(e), v);
      }
    }
  }

  /** In ascending order, position k splits what is counted. */
  lemma {:induction false} AtMostAt(s: seq<nat>, k: nat, v: nat)
    requires Ascending(s) && k < |s|
    ensures s[k] <= v ==> AtMost(s, v) >= k + 1
    ensures s[k] > v ==> AtMost(s, v) <= k
    decreases |s|
  {
    if k > 0 {
      AtMostAt(s[1..], k - 1, v);
    } else if s[0] > v {
      NoneAtMost(s, v);
    }
  }

  lemma {:induction false} NoneAtMost(s: seq<nat>, v: nat)
    requires Ascending(s) && (s != [] ==> s[0] > v)
    ensures AtMost(s, v) == 0
    decreases |s|
  {
    if s != [] { NoneAtMost(s[1..], v); }
  }

  /** The value reported is the nearest-rank percentile: the smallest duration that at least the
      given share of the samples does not exceed. There is one exactly if there are samples. */
  lemma PercentileIsNearestRank(rows: seq<Execution>, percent: nat, smaller: nat)
    requires 1 <= percent <= 100
    ensures var p := Percentile(Ranked(rows), percent); var n := Samples(rows);
      && (p.Some? <==> n >= 1)
      && (p.Some? ==> 100 * Within(rows, p.value) >= n * percent)
      && (p.Some? && smaller < p.value ==> 100 * Within(rows, smaller) < n * percent)
  {
    var ranked := Ranked(rows);
    RankedIsSorted(rows, smaller);
    if ranked != [] {
      var k := Rank(percent, |ranked|) - 1;
      RankInRange(percent, |ranked|);
      RankedIsSorted(rows, ranked[k]);
      AtMostAt(ranked, k, ranked[k]);
      AtMostAt(ranked, k, smaller);
    }
  }

  lemma RanksAreOrdered(low: nat, high: nat, n: nat)
    requires low <= high
    ensures Rank(low, n) <= Rank(high, n)
  {
    assert n * low <= n * high;
    Quotients(n * low + 99, n * high + 99);
  }

  lemma Quotients(a: nat, b: nat)
    requires a <= b
    ensures a / 100 <= b / 100
  {
  }

  lemma PercentilesAreOrdered(rows: seq<Execution>, low: nat, high: nat)
    requires 1 <= low <= high <= 100 && Samples(rows) >= 1
    ensures var ranked := Ranked(rows);
      Percentile(ranked, low).Some? && Percentile(ranked, high).Some?
      && Percentile(ranked, low).value <= Percentile(ranked, high).value
  {
    var ranked := Ranked(rows);
    RankedIsSorted(rows, 0);
    RankInRange(low, |ranked|);
    RankInRange(high, |ranked|);
    RanksAreOrdered(low, high, |ranked|);
    var i, j := Rank(low, |ranked|) - 1, Rank(high, |ranked|) - 1;
    assert ranked[i] <= ranked[j];
  }

  // ---------------------------------------------------------------------------------------------
  // The answer
  // ---------------------------------------------------------------------------------------------

  datatype ExecutionStats = ExecutionStats(
    total: nat,
    status: StatusCounts,
    initiators: seq<Initiators>,
    capturedBytes: nat,
    truncatedExecutions: nat,
    samples: nat,
    p50: Option<nat>,
    p95: Option<nat>)

  predicate InWindow(e: Execution, workspace: Id, since: int, until: int) {
    e.workspace == workspace && since <= e.createdAt <= until
  }

  function Selected(rows: seq<Execution>, workspace: Id, since: int, until: int): (selected: seq<Execution>)
    ensures forall e :: e in selected <==> e in rows && InWindow(e, workspace, since, until)
  {
    if rows == [] then []
    else
      assert forall e :: e in rows <==> e in rows[..|rows| - 1] || e == rows[|rows| - 1];
      var e, rest := rows[|rows| - 1], Selected(rows[..|rows| - 1], workspace, since, until);
      if InWindow(e, workspace, since, until) then rest + [e] else rest
  }

  function Captured(rows: seq<Execution>): nat {
    if rows == [] then 0 else Captured(rows[..|rows| - 1]) + rows[|rows| - 1].capturedBytes
  }

  function Truncated(rows: seq<Execution>): nat {
    if rows == [] then 0 else Truncated(rows[..|rows| - 1]) + (if rows[|rows| - 1].outputTruncated then 1 else 0)
  }

  method GetExecutionStats(table: seq<Execution>, workspace: Id, since: int, until: int)
    returns (r: Result<ExecutionStats>)
    ensures r.Err? <==> since > until
    ensures r.Err? ==> r.error == InvalidRequest
    ensures r.Ok? ==>
      var rows := Selected(table, workspace, since, until);
      && r.value.total == |rows|
      && r.value.status == StatusCountsOf(rows) && r.value.status.Sum() == |rows|
      && r.value.initiators == ByInitiator(rows) && Total(r.value.initiators) == |rows| && Sorted(r.value.initiators)
      && r.value.capturedBytes == Captured(rows) && r.value.truncatedExecutions == Truncated(rows)
      && r.value.samples == Samples(rows)
      && r.value.p50 == Percentile(Ranked(rows), 50) && r.value.p95 == Percentile(Ranked(rows), 95)
      && (r.value.p50.Some? <==> r.value.samples >= 1) && (r.value.p95.Some? <==> r.value.samples >= 1)
      && (r.value.samples >= 1 ==> r.value.p50.value <= r.value.p95.value)
  {
    if since > until {
      return Err(InvalidRequest);
    }
    var rows := Selected(table, workspace, since, until);
    StatusesPartition(rows);
    InitiatorsPartition(rows, "");
    PercentileIsNearestRank(rows, 50, 0);
    PercentileIsNearestRank(rows, 95, 0);
    if Samples(rows) >= 1 { PercentilesAreOrdered(rows, 50, 95); }
    var ranked := Ranked(rows);
    return Ok(ExecutionStats(|rows|, StatusCountsOf(rows), ByInitiator(rows), Captured(rows), Truncated(rows),
                             Samples(rows), Percentile(ranked, 50), Percentile(ranked, 95)));
  }
}
