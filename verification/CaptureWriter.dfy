/** The task that writes captured records to the store in batches (src/executor.rs). */
module CaptureWriter {
  import opened Model
  import opened EventLog
  import opened Capture
  import Db = Database

  const CAPTURE_BATCH_SIZE: nat := 64

  datatype Message = Record(record: CaptureRecord) | Barrier

  /** What became of a record that reached the store. */
  datatype Fate = Fate(record: CaptureRecord, committed: bool)

  /** The writer beside the tables it writes to. `fates` and `mark` only remember: which records were
      tried so far, and how many of them before the last barrier. */
  datatype Writer = Writer(
    rows: Rows,
    records: seq<CaptureRecord>,
    pendingError: bool,
    answers: seq<bool>,
    fates: seq<Fate>,
    mark: nat)

  function Fates(records: seq<CaptureRecord>, committed: bool): (fates: seq<Fate>)
    ensures |fates| == |records|
    ensures forall i | 0 <= i < |records| :: fates[i] == Fate(records[i], committed)
  {
    seq(|records|, i requires 0 <= i < |records| => Fate(records[i], committed))
  }

  /** Writes the buffered batch; `storage` says whether the store accepts the transaction. */
  function Flush(w: Writer, storage: bool): Writer {
    if w.records == [] then w
    else if storage && BatchAccepted(w.rows, w.records) then
      w.(rows := AppendBatch(w.rows, w.records), records := [], fates := w.fates + Fates(w.records, true))
    else
      w.(records := [], pendingError := true, fates := w.fates + Fates(w.records, false))
  }

  function Take(w: Writer, message: Message, storage: bool): Writer {
    match message
    case Record(record) =>
      var grown := w.(records := w.records + [record]);
      if |grown.records| >= CAPTURE_BATCH_SIZE then Flush(grown, storage) else grown
    case Barrier =>
      var f := Flush(w, storage);
      f.(pendingError := false, answers := f.answers + [!f.pendingError], mark := |f.fates|)
  }

  /** The writer's own steps, interleaved with the commands of everyone else. */
  datatype Step =
    | TakeNext(message: Message, storage: bool)
    | FlushNow(storage: bool)
    | Other(command: Command)

  function Next(w: Writer, step: Step): Writer {
    match step
    case TakeNext(message, storage) => Take(w, message, storage)
    case FlushNow(storage) => Flush(w, storage)
    case Other(command) => w.(rows := Apply(w.rows, command))
  }

  function After(w: Writer, steps: seq<Step>): Writer {
    if steps == [] then w else Next(After(w, steps[..|steps| - 1]), steps[|steps| - 1])
  }

  // ---------------------------------------------------------------------------------------------
  // Barriers
  // ---------------------------------------------------------------------------------------------

  ghost predicate AllCommitted(fates: seq<Fate>) {
    forall i | 0 <= i < |fates| :: fates[i].committed
  }

  /** The error the writer remembers is exactly a loss since the last barrier. */
  ghost predicate WriterOk(w: Writer) {
    && w.mark <= |w.fates|
    && |w.records| < CAPTURE_BATCH_SIZE
    && (w.pendingError <==> !AllCommitted(w.fates[w.mark..]))
  }

  lemma AllCommittedConcat(a: seq<Fate>, b: seq<Fate>)
    ensures AllCommitted(a + b) <==> AllCommitted(a) && AllCommitted(b)
  {
    assert forall i | 0 <= i < |a| :: (a + b)[i] == a[i];
    assert forall i | 0 <= i < |b| :: (a + b)[|a| + i] == b[i];
  }

  lemma FlushKeeps(w: Writer, storage: bool)
    requires w.mark <= |w.fates| && (w.pendingError <==> !AllCommitted(w.fates[w.mark..]))
    ensures WriterOk(Flush(w, storage)) && Flush(w, storage).records == []
  {
    if w.records != [] {
      var accepted := storage && BatchAccepted(w.rows, w.records);
      var added := Fates(w.records, accepted);
      assert (w.fates + added)[w.mark..] == w.fates[w.mark..] + added;
      AllCommittedConcat(w.fates[w.mark..], added);
      assert added[0].committed == accepted;
    }
  }

  lemma NextKeeps(w: Writer, step: Step)
    requires WriterOk(w)
    ensures WriterOk(Next(w, step))
  {
    match step
    case TakeNext(Record(record), storage) =>
      FlushKeeps(w.(records := w.records + [record]), storage);
    case TakeNext(Barrier, storage) =>
      FlushKeeps(w, storage);
    case FlushNow(storage) =>
      FlushKeeps(w, storage);
    case Other(_) =>
  }

  lemma {:induction false} RunKeeps(w: Writer, steps: seq<Step>)
    requires WriterOk(w)
    ensures WriterOk(After(w, steps))
    decreases |steps|
  {
    if steps != [] {
      RunKeeps(w, steps[..|steps| - 1]);
      NextKeeps(After(w, steps[..|steps| - 1]), steps[|steps| - 1]);
    }
  }

  /** A barrier is answered positively exactly when every record since the barrier before it is
      committed; by then every record taken earlier has been tried. The answer is shared: it does
      not say whose record was lost, and the next barrier starts clean. */
  lemma BarrierTellsOfLoss(w: Writer, storage: bool)
    requires WriterOk(w)
    ensures var after := Take(w, Barrier, storage);
      && after.records == [] && !after.pendingError
      && after.answers == w.answers + [AllCommitted(after.fates[w.mark..])]
      && Tried(after.fates) == Tried(w.fates) + w.records
  {
    FlushKeeps(w, storage);
    FlushTries(w, storage);
  }

  /** The records that were tried, in order. */
  function Tried(fates: seq<Fate>): (records: seq<CaptureRecord>)
    ensures |records| == |fates|
    ensures forall i | 0 <= i < |fates| :: records[i] == fates[i].record
  {
    seq(|fates|, i requires 0 <= i < |fates| => fates[i].record)
  }

  lemma FlushTries(w: Writer, storage: bool)
    ensures Tried(Flush(w, storage).fates) + Flush(w, storage).records == Tried(w.fates) + w.records
    ensures Flush(w, storage).records == []
    ensures w.fates <= Flush(w, storage).fates
  {
  }

  /** Of the records that were tried, those of this execution are all committed. */
  ghost predicate NoneLost(fates: seq<Fate>, id: Id) {
    forall i | 0 <= i < |fates| && fates[i].record.id == id :: fates[i].committed
  }

  lemma NoneLostConcat(a: seq<Fate>, b: seq<Fate>, id: Id)
    ensures NoneLost(a + b, id) <==> NoneLost(a, id) && NoneLost(b, id)
  {
    assert forall i | 0 <= i < |a| :: (a + b)[i] == a[i];
    assert forall i | 0 <= i < |b| :: (a + b)[|a| + i] == b[i];
  }

  /** What a positive answer is worth to an execution: none of its records is lost exactly if none of
      those was that were tried before the barrier before, whoever that belonged to. */
  lemma OkCoversTheLastBarrier(w: Writer, storage: bool, id: Id)
    requires WriterOk(w) && Take(w, Barrier, storage).answers == w.answers + [true]
    ensures NoneLost(Take(w, Barrier, storage).fates, id) <==> NoneLost(w.fates[..w.mark], id)
  {
    BarrierTellsOfLoss(w, storage);
    FlushTries(w, storage);
    var answers, fates := Take(w, Barrier, storage).answers, Take(w, Barrier, storage).fates;
    assert answers[|w.answers|] == AllCommitted(fates[w.mark..]);
    assert fates == fates[..w.mark] + fates[w.mark..];
    assert fates[..w.mark] == w.fates[..w.mark];
    NoneLostConcat(fates[..w.mark], fates[w.mark..], id);
  }

  predicate AllOk(answers: seq<bool>) {
    forall i | 0 <= i < |answers| :: answers[i]
  }

  lemma AllOkConcat(a: seq<bool>, b: seq<bool>)
    ensures AllOk(a + b) <==> AllOk(a) && AllOk(b)
  {
    assert forall i | 0 <= i < |a| :: (a + b)[i] == a[i];
    assert forall i | 0 <= i < |b| :: (a + b)[|a| + i] == b[i];
  }

  lemma OneMoreAnswer(before: seq<bool>, answers: seq<bool>, told: nat, ok: bool)
    requires told <= |before| && answers == before + [ok]
    ensures AllOk(answers[told..]) <==> AllOk(before[told..]) && ok
  {
    assert answers[told..] == before[told..] + [ok];
    AllOkConcat(before[told..], [ok]);
    assert [ok][0] == ok;
  }

  lemma MoreFates(before: seq<Fate>, fates: seq<Fate>, mark: nat, mid: nat)
    requires mark <= mid <= |before| && before <= fates
    ensures AllCommitted(fates[mark..|fates|]) <==> AllCommitted(before[mark..mid]) && AllCommitted(fates[mid..])
  {
    assert fates[mark..|fates|] == before[mark..mid] + fates[mid..];
    AllCommittedConcat(before[mark..mid], fates[mid..]);
  }

  /** The answers since the first `told` are all Ok exactly if the records tried between the mark of
      that time and the last barrier are all committed. */
  ghost predicate AnswersTell(told: nat, mark: nat, w: Writer) {
    && told <= |w.answers| && mark <= w.mark <= |w.fates|
    && (AllOk(w.answers[told..]) <==> AllCommitted(w.fates[mark..w.mark]))
  }

  lemma BarrierKeepsTelling(told: nat, mark: nat, w: Writer, storage: bool)
    requires WriterOk(w) && AnswersTell(told, mark, w)
    ensures AnswersTell(told, mark, Take(w, Barrier, storage))
  {
    var after := Take(w, Barrier, storage);
    BarrierTellsOfLoss(w, storage);
    FlushTries(w, storage);
    OneMoreAnswer(w.answers, after.answers, told, AllCommitted(after.fates[w.mark..]));
    MoreFates(w.fates, after.fates, mark, w.mark);
  }

  lemma SameSlice(before: seq<Fate>, fates: seq<Fate>, from: nat, end: nat)
    requires from <= end <= |before| && before <= fates
    ensures fates[from..end] == before[from..end] && fates[..end] == before[..end]
  {
  }

  lemma NextKeepsTelling(told: nat, mark: nat, w: Writer, step: Step)
    requires WriterOk(w) && AnswersTell(told, mark, w)
    ensures AnswersTell(told, mark, Next(w, step))
  {
    match step
    case TakeNext(Record(record), storage) =>
      FlushTries(w.(records := w.records + [record]), storage);
      SameSlice(w.fates, Next(w, step).fates, mark, w.mark);
    case TakeNext(Barrier, storage) =>
      BarrierKeepsTelling(told, mark, w, storage);
    case FlushNow(storage) =>
      FlushTries(w, storage);
      SameSlice(w.fates, Next(w, step).fates, mark, w.mark);
    case Other(_) =>
  }

  /** Together the answers hide nothing: over every run they are all Ok iff every record that was
      tried before the last barrier, and not yet told of at the start, is committed. */
  lemma {:induction false} AnswersTellOfLosses(w: Writer, steps: seq<Step>)
    requires WriterOk(w)
    ensures var v := After(w, steps);
      && WriterOk(v) && |w.answers| <= |v.answers| && w.mark <= v.mark <= |v.fates|
      && (AllOk(v.answers[|w.answers|..]) <==> AllCommitted(v.fates[w.mark..v.mark]))
    decreases |steps|
  {
    if steps == [] {
      assert w.answers[|w.answers|..] == [] && w.fates[w.mark..w.mark] == [];
    } else {
      var init, last := steps[..|steps| - 1], steps[|steps| - 1];
      AnswersTellOfLosses(w, init);
      NextKeeps(After(w, init), last);
      NextKeepsTelling(|w.answers|, w.mark, After(w, init), last);
    }
  }

  ghost predicate NoneOf(records: seq<CaptureRecord>, id: Id) {
    forall i | 0 <= i < |records| :: records[i].id != id
  }

  /** A barrier that comes next would cover no record of this execution. */
  ghost predicate NoneSince(w: Writer, id: Id) {
    w.mark <= |w.fates| && NoneOf(Tried(w.fates[w.mark..]), id) && NoneOf(w.records, id)
  }

  /** A barrier snatches an answer: it covers records of this execution and is answered Err. */
  ghost predicate Snatches(w: Writer, step: Step, id: Id) {
    && step.TakeNext? && step.message.Barrier? && !NoneSince(w, id)
    && Take(w, Barrier, step.storage).answers == w.answers + [false]
  }

  /** No record of this execution was lost before the last barrier. */
  ghost predicate CleanToMark(w: Writer, id: Id) {
    w.mark <= |w.fates| && NoneLost(w.fates[..w.mark], id)
  }

  lemma UncoveredIsNotLost(w: Writer, storage: bool, id: Id)
    requires WriterOk(w) && NoneSince(w, id) && CleanToMark(w, id)
    ensures NoneLost(Take(w, Barrier, storage).fates, id)
  {
    var fates := Take(w, Barrier, storage).fates;
    BarrierTellsOfLoss(w, storage);
    FlushTries(w, storage);
    forall i | 0 <= i < |fates| && fates[i].record.id == id
      ensures fates[i].committed
    {
      assert fates[i].record == Tried(fates)[i] == (Tried(w.fates) + w.records)[i];
      if i >= |w.fates| {
        assert fates[i].record == w.records[i - |w.fates|];
      } else if i >= w.mark {
        assert fates[i].record == Tried(w.fates[w.mark..])[i - w.mark];
      } else {
        assert w.fates[..w.mark][i] == w.fates[i] == fates[i];
      }
    }
  }

  lemma BarrierKeepsClean(w: Writer, storage: bool, id: Id)
    requires WriterOk(w) && CleanToMark(w, id) && !Snatches(w, TakeNext(Barrier, storage), id)
    ensures CleanToMark(Take(w, Barrier, storage), id)
  {
    var after := Take(w, Barrier, storage);
    BarrierTellsOfLoss(w, storage);
    if AllCommitted(after.fates[w.mark..]) {
      OkCoversTheLastBarrier(w, storage, id);
    } else {
      UncoveredIsNotLost(w, storage, id);
    }
    assert after.fates[..after.mark] == after.fates;
  }

  lemma CleanKept(w: Writer, step: Step, id: Id)
    requires WriterOk(w) && CleanToMark(w, id) && !Snatches(w, step, id)
    ensures CleanToMark(Next(w, step), id)
  {
    match step
    case TakeNext(Record(record), storage) =>
      FlushTries(w.(records := w.records + [record]), storage);
      SameSlice(w.fates, Next(w, step).fates, 0, w.mark);
    case TakeNext(Barrier, storage) =>
      BarrierKeepsClean(w, storage, id);
    case FlushNow(storage) =>
      FlushTries(w, storage);
      SameSlice(w.fates, Next(w, step).fates, 0, w.mark);
    case Other(_) =>
  }

  ghost predicate NeverSnatched(w: Writer, steps: seq<Step>, id: Id) {
    forall i | 0 <= i < |steps| :: !Snatches(After(w, steps[..i]), steps[i], id)
  }

  lemma EarlierNeverSnatched(w: Writer, steps: seq<Step>, id: Id)
    requires steps != [] && NeverSnatched(w, steps, id)
    ensures NeverSnatched(w, steps[..|steps| - 1], id)
    ensures !Snatches(After(w, steps[..|steps| - 1]), steps[|steps| - 1], id)
  {
    var init := steps[..|steps| - 1];
    assert forall i | 0 <= i < |init| :: init[..i] == steps[..i] && init[i] == steps[i];
  }

  lemma {:induction false} CleanInRun(w: Writer, steps: seq<Step>, id: Id)
    requires WriterOk(w) && CleanToMark(w, id) && NeverSnatched(w, steps, id)
    ensures WriterOk(After(w, steps)) && CleanToMark(After(w, steps), id)
    decreases |steps|
  {
    RunKeeps(w, steps);
    if steps != [] {
      var init := steps[..|steps| - 1];
      EarlierNeverSnatched(w, steps, id);
      CleanInRun(w, init, id);
      CleanKept(After(w, init), steps[|steps| - 1], id);
    }
  }

  /** An execution that is answered Ok has lost nothing, unless a barrier that covered some of its
      records before was answered Err. */
  lemma OkMeansNoLoss(w: Writer, steps: seq<Step>, storage: bool, id: Id)
    requires WriterOk(w) && CleanToMark(w, id) && NeverSnatched(w, steps, id)
    requires var v := After(w, steps); Take(v, Barrier, storage).answers == v.answers + [true]
    ensures NoneLost(Take(After(w, steps), Barrier, storage).fates, id)
  {
    CleanInRun(w, steps, id);
    OkCoversTheLastBarrier(After(w, steps), storage, id);
  }

  /** One execution's lost batch can be reported to another: the second barrier answers Ok although
      its own execution's record is gone. */
  lemma LossIsReportedToTheFirstBarrier(a: CaptureRecord, rows: Rows)
    ensures var lost := After(Writer(rows, [], false, [], [], 0), [TakeNext(Record(a), true), FlushNow(false),
                                                                TakeNext(Barrier, true), TakeNext(Barrier, true)]);
      lost.answers == [false, true] && lost.fates == [Fate(a, false)] && lost.rows == rows
  {
    var w0 := Writer(rows, [], false, [], [], 0);
    var s := [TakeNext(Record(a), true), FlushNow(false), TakeNext(Barrier, true), TakeNext(Barrier, true)];
    assert s[..3][..2] == s[..2] && s[..2][..1] == s[..1] && s[..1][..0] == [] && s[..4] == s;
    var w1, w2 := After(w0, s[..1]), After(w0, s[..2]);
    assert After(w0, []) == w0 && w1 == Take(w0, Record(a), true);
    assert w0.records + [a] == [a];
    assert w1 == w0.(records := [a]);
    assert w2 == Flush(w1, false) && w2.fates == [Fate(a, false)];
    assert After(w0, s[..3]) == Take(w2, Barrier, true);
    assert After(w0, s) == Take(After(w0, s[..3]), Barrier, true);
  }

  // ---------------------------------------------------------------------------------------------
  // Batching refines writing one record at a time
  // ---------------------------------------------------------------------------------------------

  function Committed(fates: seq<Fate>): seq<CaptureRecord> {
    if fates == [] then []
    else
      var last := fates[|fates| - 1];
      Committed(fates[..|fates| - 1]) + (if last.committed then [last.record] else [])
  }

  function PayloadOf(record: CaptureRecord): Payload {
    match record
    case OutputRecord(_, _, stream, data) => Output(stream, data)
    case TruncatedRecord(_, _, limit) => CaptureTruncated(limit)
  }

  /** The payloads of one execution's records, in order. */
  function Payloads(id: Id, records: seq<CaptureRecord>): seq<Payload> {
    AsPayloads(RecordsOf(id, records))
  }

  function AsPayloads(records: seq<CaptureRecord>): seq<Payload> {
    if records == [] then []
    else AsPayloads(records[..|records| - 1]) + [PayloadOf(records[|records| - 1])]
  }

  lemma {:induction false} AsPayloadsConcat(a: seq<CaptureRecord>, b: seq<CaptureRecord>)
    ensures AsPayloads(a + b) == AsPayloads(a) + AsPayloads(b)
    decreases |b|
  {
    if b == [] {
      assert a + b == a;
    } else {
      assert (a + b)[..|a + b| - 1] == a + b[..|b| - 1];
      AsPayloadsConcat(a, b[..|b| - 1]);
    }
  }

  /** The payloads in a log that came from capture, in order. */
  function CapturedPayloads(events: seq<Event>): seq<Payload> {
    if events == [] then []
    else
      var last := events[|events| - 1].payload;
      CapturedPayloads(events[..|events| - 1]) + (if last.Output? || last.CaptureTruncated? then [last] else [])
  }

  lemma CapturedPayloadsTail(events: seq<Event>, event: Event)
    ensures CapturedPayloads(events + [event]) == CapturedPayloads(events)
      + (if event.payload.Output? || event.payload.CaptureTruncated? then [event.payload] else [])
  {
    assert (events + [event])[..|events|] == events;
  }

  lemma PayloadsConcat(id: Id, a: seq<CaptureRecord>, b: seq<CaptureRecord>)
    ensures Payloads(id, a + b) == Payloads(id, a) + Payloads(id, b)
  {
    RecordsOfConcat(id, a, b);
    AsPayloadsConcat(RecordsOf(id, a), RecordsOf(id, b));
  }

  lemma {:induction false} CommittedConcat(a: seq<Fate>, b: seq<Fate>)
    ensures Committed(a + b) == Committed(a) + Committed(b)
    decreases |b|
  {
    if b == [] {
      assert a + b == a;
    } else {
      assert (a + b)[..|a + b| - 1] == a + b[..|b| - 1];
      CommittedConcat(a, b[..|b| - 1]);
    }
  }

  lemma {:induction false} CommittedFates(records: seq<CaptureRecord>, committed: bool)
    ensures Committed(Fates(records, committed)) == if committed then records else []
    decreases |records|
  {
    if records != [] {
      var init := records[..|records| - 1];
      assert Fates(records, committed)[..|records| - 1] == Fates(init, committed);
      CommittedFates(init, committed);
    }
  }

  lemma {:induction false} CapturedAllPayloads(row: Row, records: seq<CaptureRecord>)
    ensures CapturedPayloads(CapturedAll(row, records).events) == CapturedPayloads(row.events) + AsPayloads(records)
    decreases |records|
  {
    if records != [] {
      var init, last := records[..|records| - 1], records[|records| - 1];
      CapturedAllPayloads(row, init);
      CapturedPayload(CapturedAll(row, init), last);
    }
  }

  lemma CapturedPayload(row: Row, record: CaptureRecord)
    ensures CapturedPayloads(Captured(row, record).events) == CapturedPayloads(row.events) + [PayloadOf(record)]
  {
    CapturedPayloadsTail(row.events, LastEvent(Captured(row, record)));
  }

  lemma BatchCaptures(rows: Rows, records: seq<CaptureRecord>, id: Id)
    requires BatchAccepted(rows, records) && id in rows
    ensures id in AppendBatch(rows, records)
    ensures CapturedPayloads(AppendBatch(rows, records)[id].events)
      == CapturedPayloads(rows[id].events) + Payloads(id, records)
  {
    BatchIsPerExecution(rows, records, id);
    CapturedAllPayloads(rows[id], RecordsOf(id, records));
  }

  /** A command of another component: it may neither append capture nor remove the execution. */
  ghost predicate LeavesCaptureOf(step: Step, id: Id) {
    step.Other? ==> !step.command.AppendCaptureBatch? && !Prunes(step.command, id)
  }

  /** The part of a log that came from capture is what the writer committed, record by record. */
  ghost predicate Refines(w: Writer, id: Id, start: seq<Payload>) {
    && id in w.rows
    && CapturedPayloads(w.rows[id].events) == start + Payloads(id, Committed(w.fates))
  }

  lemma AcceptedRefines(w: Writer, id: Id, start: seq<Payload>)
    requires Refines(w, id, start) && BatchAccepted(w.rows, w.records)
    ensures id in AppendBatch(w.rows, w.records)
    ensures CapturedPayloads(AppendBatch(w.rows, w.records)[id].events)
      == start + Payloads(id, Committed(w.fates + Fates(w.records, true)))
  {
    BatchCaptures(w.rows, w.records, id);
    CommittedFates(w.records, true);
    CommittedConcat(w.fates, Fates(w.records, true));
    PayloadsConcat(id, Committed(w.fates), w.records);
    Associative(start, Payloads(id, Committed(w.fates)), Payloads(id, w.records));
  }

  lemma LostRefines(w: Writer, id: Id, start: seq<Payload>)
    requires Refines(w, id, start)
    ensures Committed(w.fates + Fates(w.records, false)) == Committed(w.fates)
  {
    CommittedFates(w.records, false);
    CommittedConcat(w.fates, Fates(w.records, false));
  }

  lemma FlushRefines(w: Writer, storage: bool, id: Id, start: seq<Payload>)
    requires Refines(w, id, start)
    ensures Refines(Flush(w, storage), id, start)
  {
    if w.records == [] {
    } else if storage && BatchAccepted(w.rows, w.records) {
      AcceptedRefines(w, id, start);
    } else {
      LostRefines(w, id, start);
    }
  }

  lemma BegunRefines(id: Id, row: Row, pid: int, pgid: int, now: int)
    ensures CapturedPayloads(Begun(id, row, pid, pgid, now).events) == CapturedPayloads(row.events)
  {
    CapturedPayloadsTail(row.events, LastEvent(Begun(id, row, pid, pgid, now)));
  }

  lemma EndedRefines(id: Id, row: Row, state: ExecutionState, outcome: Outcome, now: int)
    ensures CapturedPayloads(Ended(id, row, state, outcome, now).events) == CapturedPayloads(row.events)
  {
    CapturedPayloadsTail(row.events, LastEvent(Ended(id, row, state, outcome, now)));
  }

  lemma CommandRefines(rows: Rows, command: Command, id: Id)
    requires id in rows && !command.AppendCaptureBatch? && !Prunes(command, id)
    ensures id in Apply(rows, command)
    ensures CapturedPayloads(Apply(rows, command)[id].events) == CapturedPayloads(rows[id].events)
  {
    match command
    case MarkRunning(_, pid, pgid, now) => BegunRefines(id, rows[id], pid, pgid, now);
    case Finish(_, state, outcome, now) => EndedRefines(id, rows[id], state, outcome, now);
    case CancelQueued(now) => EndedRefines(id, rows[id], Cancelled, CancelledBy(None), now);
    case ReconcileIncomplete(now) => EndedRefines(id, rows[id], Interrupted, InterruptedBy(RESTARTED), now);
    case _ =>
  }

  lemma NextRefines(w: Writer, step: Step, id: Id, start: seq<Payload>)
    requires Refines(w, id, start) && LeavesCaptureOf(step, id)
    ensures Refines(Next(w, step), id, start)
  {
    match step
    case TakeNext(Record(record), storage) =>
      FlushRefines(w.(records := w.records + [record]), storage, id, start);
    case TakeNext(Barrier, storage) =>
      FlushRefines(w, storage, id, start);
    case FlushNow(storage) =>
      FlushRefines(w, storage, id, start);
    case Other(command) =>
      CommandRefines(w.rows, command, id);
  }

  /** The records the steps took, in order. */
  function TakenIn(steps: seq<Step>): seq<CaptureRecord> {
    if steps == [] then []
    else
      var last := steps[|steps| - 1];
      TakenIn(steps[..|steps| - 1]) + (if last.TakeNext? && last.message.Record? then [last.message.record] else [])
  }

  lemma {:induction false} RunRefines(w: Writer, steps: seq<Step>, id: Id, start: seq<Payload>)
    requires Refines(w, id, start) && forall i | 0 <= i < |steps| :: LeavesCaptureOf(steps[i], id)
    ensures Refines(After(w, steps), id, start)
    decreases |steps|
  {
    if steps != [] {
      var init, last := steps[..|steps| - 1], steps[|steps| - 1];
      RunRefines(w, init, id, start);
      NextRefines(After(w, init), last, id, start);
    }
  }

  /** Records are tried in the order they were taken; none is skipped and none tried twice. */
  lemma {:induction false} RunTriesInOrder(w: Writer, steps: seq<Step>)
    ensures Tried(After(w, steps).fates) + After(w, steps).records == Tried(w.fates) + w.records + TakenIn(steps)
    decreases |steps|
  {
    if steps != [] {
      var init, last := steps[..|steps| - 1], steps[|steps| - 1];
      RunTriesInOrder(w, init);
      var before := After(w, init);
      if last.TakeNext? && last.message.Record? {
        var one := [last.message.record];
        FlushTries(before.(records := before.records + one), last.storage);
        assert Tried(before.fates) + (before.records + one) == Tried(before.fates) + before.records + one;
        assert Tried(w.fates) + w.records + TakenIn(steps) == Tried(w.fates) + w.records + TakenIn(init) + one;
      } else if !last.Other? {
        FlushTries(before, last.storage);
      }
    } else {
      assert w.records + TakenIn(steps) == w.records;
    }
  }

  lemma {:induction false} CommittedIsTried(fates: seq<Fate>)
    requires AllCommitted(fates)
    ensures Committed(fates) == Tried(fates)
    decreases |fates|
  {
    if fates != [] {
      var init := fates[..|fates| - 1];
      assert forall i | 0 <= i < |init| :: init[i] == fates[i];
      CommittedIsTried(init);
      assert Tried(fates)[..|init|] == Tried(init);
    }
  }

  /** Without losses an execution's log depends on its own records in enqueue order alone: not on
      where batches end, nor on what other executions and components do in between. */
  lemma BatchingRefinesOneAtATime(w: Writer, steps: seq<Step>, id: Id)
    requires WriterOk(w) && w.fates == [] && w.records == [] && id in w.rows
    requires forall i | 0 <= i < |steps| :: LeavesCaptureOf(steps[i], id)
    requires AllCommitted(After(w, steps).fates) && After(w, steps).records == []
    ensures id in After(w, steps).rows
    ensures CapturedPayloads(After(w, steps).rows[id].events)
      == CapturedPayloads(w.rows[id].events) + Payloads(id, TakenIn(steps))
  {
    var start := CapturedPayloads(w.rows[id].events);
    assert start + Payloads(id, Committed(w.fates)) == start;
    RunRefines(w, steps, id, start);
    RunTriesInOrder(w, steps);
    CommittedIsTried(After(w, steps).fates);
    assert Tried(w.fates) + w.records == [];
    assert [] + TakenIn(steps) == TakenIn(steps);
    assert Tried(After(w, steps).fates) + [] == Tried(After(w, steps).fates);
  }

  // ---------------------------------------------------------------------------------------------
  // The task itself
  // ---------------------------------------------------------------------------------------------

  class CaptureTask {
    const db: Db.Database
    var records: seq<CaptureRecord>
    var pendingError: Option<Error>
    var answers: seq<bool>
    var broadcast: seq<Event>
    var fatal: bool
    ghost var fates: seq<Fate>
    ghost var mark: nat

    ghost predicate Valid()
      reads this, db
    {
      db.Valid() && WriterOk(View())
    }

    ghost function View(): Writer
      reads this, db
    {
      Writer(db.rows, records, pendingError.Some?, answers, fates, mark)
    }

    constructor (db: Db.Database)
      requires db.Valid()
      ensures Valid() && this.db == db && View() == Writer(db.rows, [], false, [], [], 0)
      ensures broadcast == [] && !fatal
    {
      this.db := db;
      broadcast, fatal := [], false;
      records, pendingError, answers, fates, mark := [], None, [], [], 0;
    }

    method Announce(events: seq<Event>)
      modifies this`broadcast
      ensures broadcast == old(broadcast) + events
    {
      var i := 0;
      while i < |events|
        invariant i <= |events| && broadcast == old(broadcast) + events[..i]
      {
        broadcast := broadcast + [events[i]];
        i := i + 1;
      }
    }

    /** Commits the waiting records and announces their events, or remembers the failure and raises
        the alarm. */
    method FlushCapture(storage: bool)
      requires db.Valid()
      modifies this, db
      ensures db.Valid() && View() == Flush(old(View()), storage)
      ensures old(broadcast) <= broadcast
      ensures Db.EventsMatch(old(db.rows), db.rows, broadcast[|old(broadcast)|..])
      ensures fatal <==> old(fatal) || !AllCommitted(fates[|old(fates)|..])
    {
      if records == [] {
        return;
      }
      var batch := records;
      records := [];
      if storage {
        var written := db.AppendCaptureBatch(batch);
        if written.Ok? {
          fates := fates + Fates(batch, true);
          Announce(written.value);
          return;
        }
      }
      pendingError := Some(StorageUnavailable);
      fatal := true;
      fates := fates + Fates(batch, false);
      assert !fates[|old(fates)|].committed;
    }

    method ProcessCaptureMessage(message: Message, storage: bool)
      requires Valid()
      modifies this, db
      ensures Valid() && View() == Take(old(View()), message, storage)
    {
      NextKeeps(View(), TakeNext(message, storage));
      match message {
        case Record(record) =>
          records := records + [record];
          if |records| >= CAPTURE_BATCH_SIZE {
            FlushCapture(storage);
          }
        case Barrier =>
          FlushCapture(storage);
          answers := answers + [pendingError.None?];
          pendingError := None;
          mark := |fates|;
      }
    }

    /** The task's loop over everything that is ever sent to it: `ready(i)` says whether message i was
        already waiting when the batch before it was collected, `storage(i)` whether the flush
        that follows message i succeeds. The steps taken are a run of the writer. */
    method Run(messages: seq<Message>, ready: nat -> bool, storage: nat -> bool) returns (ghost steps: seq<Step>)
      requires Valid()
      modifies this, db
      ensures Valid() && View() == After(old(View()), steps)
      ensures records == [] && MessagesIn(steps) == messages
    {
      steps := [];
      var i := 0;
      while i < |messages|
        invariant i <= |messages| && Valid() && View() == After(old(View()), steps)
        invariant MessagesIn(steps) == messages[..i]
        decreases |messages| - i
      {
        steps := Receive(messages[i], storage(i), old(View()), steps);
        i := i + 1;
        while |records| < CAPTURE_BATCH_SIZE && i < |messages| && ready(i)
          invariant i <= |messages| && Valid() && View() == After(old(View()), steps)
          invariant MessagesIn(steps) == messages[..i]
          decreases |messages| - i
        {
          steps := Receive(messages[i], storage(i), old(View()), steps);
          i := i + 1;
        }
        steps := EndBatch(storage(i), old(View()), steps);
      }
      steps := EndBatch(storage(i), old(View()), steps);
    }

    method Receive(message: Message, storage: bool, ghost start: Writer, ghost steps: seq<Step>)
      returns (ghost grown: seq<Step>)
      requires Valid() && View() == After(start, steps)
      modifies this, db
      ensures Valid() && View() == After(start, grown)
      ensures MessagesIn(grown) == MessagesIn(steps) + [message]
    {
      ProcessCaptureMessage(message, storage);
      grown := Grown(start, steps, TakeNext(message, storage));
    }

    method EndBatch(storage: bool, ghost start: Writer, ghost steps: seq<Step>) returns (ghost grown: seq<Step>)
      requires Valid() && View() == After(start, steps)
      modifies this, db
      ensures Valid() && View() == After(start, grown) && records == []
      ensures MessagesIn(grown) == MessagesIn(steps)
    {
      FlushKeeps(View(), storage);
      FlushCapture(storage);
      grown := Grown(start, steps, FlushNow(storage));
    }
  }

  function MessagesIn(steps: seq<Step>): seq<Message> {
    if steps == [] then []
    else
      var last := steps[|steps| - 1];
      MessagesIn(steps[..|steps| - 1]) + (if last.TakeNext? then [last.message] else [])
  }

  ghost function Grown(w: Writer, steps: seq<Step>, step: Step): (grown: seq<Step>)
    ensures After(w, grown) == Next(After(w, steps), step)
    ensures MessagesIn(grown) == MessagesIn(steps) + (if step.TakeNext? then [step.message] else [])
  {
    assert (steps + [step])[..|steps|] == steps;
    steps + [step]
  }
}
