/** One execution's output on its way from the supervisor's pipe readers to its log
    (src/supervisor.rs, src/executor.rs, src/store.rs), among everything else that happens.

    Every channel is a first-in first-out queue; a step moves one item. */
module Pipeline {
  import opened Model
  import opened EventLog
  import opened Capture
  import opened CaptureWriter

  const OUTPUT_CHUNK_BYTES: nat := 16 * 1024

  datatype Frame = StartedFrame(pid: int, pgid: int) | OutputFrame(chunk: Chunk) | FinishedFrame(outcome: Outcome)

  /** An entry of the capture queue; `mine` marks the barrier of the execution under study. */
  datatype Item = Item(message: Message, mine: bool)

  datatype Stage =
    | Reading                        // in the loop over the supervisor's frames
    | Flushing(outcome: Outcome)     // the final frame was read and a barrier is on its way
    | Answered(outcome: Outcome, ok: bool)
    | Ended(outcome: Outcome)        // this task wrote the final event
    | Overtaken                      // the execution was terminal already
    | Failed

  datatype Pipe = Pipe(
    id: Id,
    limit: nat,
    open: set<OutputStream>,         // pipe readers that have not seen the end of their stream
    finishedSent: bool,
    emitted: seq<Chunk>,             // all that the readers have read so far
    frames: seq<Frame>,              // written by the supervisor, not yet read by the daemon
    consumed: seq<Chunk>,
    captured: nat,
    truncated: bool,
    stage: Stage,
    outbox: seq<Item>,               // what the daemon's task still has to send for the last frame
    queue: seq<Item>,
    writer: Writer,
    since: nat)                      // how many records were tried before the barrier before its own

  datatype Step =
    | Emit(chunk: Chunk)
    | CloseReader(stream: OutputStream)
    | SendFinished(outcome: Outcome)
    | ReadFrame
    | SendOne
    | OthersSend(message: Message)
    | WriterTakes(storage: bool)
    | WriterFlushes(storage: bool)
    | OtherCommand(command: Command)
    | WriteEnd(now: int)
    | Break

  /** The records one frame of output puts on the outbox; clock readings play no part here. */
  function SentItems(id: Id, chunk: Chunk, limit: nat, captured: nat, truncated: bool): seq<Item> {
    var persist := Min(Room(limit, captured), |chunk.data|);
    var kept := RecordItem(OutputRecord(id, 0, chunk.stream, chunk.data[..persist]));
    var mark := RecordItem(TruncatedRecord(id, 0, limit));
    var cut := persist < |chunk.data| && !truncated;
    if persist > 0 && cut then [kept, mark]
    else if persist > 0 then [kept]
    else if cut then [mark]
    else []
  }

  function RecordItem(record: CaptureRecord): Item {
    Item(Record(record), false)
  }

  function Read(s: Pipe): Pipe
    requires s.frames != []
  {
    var rest := s.(frames := s.frames[1..]);
    match s.frames[0]
    case StartedFrame(pid, pgid) =>
      rest.(writer := s.writer.(rows := Apply(s.writer.rows, MarkRunning(s.id, pid, pgid, 0))))
    case OutputFrame(chunk) =>
      rest.(consumed := s.consumed + [chunk],
            captured := (s.captured + |chunk.data|) % TWO_64,
            truncated := s.truncated || |chunk.data| > Room(s.limit, s.captured),
            outbox := SentItems(s.id, chunk, s.limit, s.captured, s.truncated))
    case FinishedFrame(outcome) =>
      rest.(stage := Flushing(outcome), outbox := [Item(Barrier, true)])
  }

  function WriterTake(s: Pipe, storage: bool): Pipe
    requires s.queue != []
  {
    var w := Take(s.writer, s.queue[0].message, storage);
    var next := s.(queue := s.queue[1..], writer := w);
    if s.queue[0].mine && s.stage.Flushing? && w.answers != []
    then next.(stage := Answered(s.stage.outcome, w.answers[|w.answers| - 1]), since := s.writer.mark) else next
  }

  function End(s: Pipe, now: int): Pipe
    requires s.stage.Answered?
  {
    var rows := s.writer.rows;
    if !s.stage.ok then s.(stage := Failed)
    else if s.id !in rows then s.(stage := Failed)
    else if rows[s.id].execution.state.IsTerminal() then s.(stage := Overtaken)
    else s.(stage := Ended(s.stage.outcome), writer := s.writer.(
              rows := Apply(rows, Finish(s.id, StateFor(s.stage.outcome), s.stage.outcome, now))))
  }

  /** Ids are not used twice. */
  predicate Creates(command: Command, id: Id) {
    command.CreateExecution? && command.id == id
  }

  /** A step that is not enabled changes nothing. */
  function Next(s: Pipe, step: Step): Pipe {
    match step
    case Emit(chunk) =>
      if chunk.stream in s.open && 1 <= |chunk.data| <= OUTPUT_CHUNK_BYTES
      then s.(emitted := s.emitted + [chunk], frames := s.frames + [OutputFrame(chunk)]) else s
    case CloseReader(stream) =>
      s.(open := s.open - {stream})
    case SendFinished(outcome) =>
      if s.open == {} && !s.finishedSent
      then s.(finishedSent := true, frames := s.frames + [FinishedFrame(outcome)]) else s
    case ReadFrame =>
      if s.stage == Reading && s.outbox == [] && s.frames != [] then Read(s) else s
    case SendOne =>
      if s.outbox != [] then s.(outbox := s.outbox[1..], queue := s.queue + [s.outbox[0]]) else s
    case OthersSend(message) =>
      if message.Record? && message.record.id == s.id then s else s.(queue := s.queue + [Item(message, false)])
    case WriterTakes(storage) =>
      if s.queue != [] then WriterTake(s, storage) else s
    case WriterFlushes(storage) =>
      s.(writer := Flush(s.writer, storage))
    case OtherCommand(command) =>
      if command.AppendCaptureBatch? || Creates(command, s.id) then s
      else s.(writer := s.writer.(rows := Apply(s.writer.rows, command)))
    case WriteEnd(now) =>
      if s.stage.Answered? then End(s, now) else s
    case Break =>
      if s.stage.Ended? then s else s.(stage := Failed, outbox := [])
  }

  // ---------------------------------------------------------------------------------------------
  // Nothing is lost, doubled or reordered on the way to the writer
  // ---------------------------------------------------------------------------------------------

  function ItemRecords(items: seq<Item>): seq<CaptureRecord> {
    if items == [] then []
    else
      var last := items[|items| - 1].message;
      ItemRecords(items[..|items| - 1]) + (if last.Record? then [last.record] else [])
  }

  lemma {:induction false} ItemRecordsConcat(a: seq<Item>, b: seq<Item>)
    ensures ItemRecords(a + b) == ItemRecords(a) + ItemRecords(b)
    decreases |b|
  {
    if b == [] {
      assert a + b == a;
    } else {
      assert (a + b)[..|a + b| - 1] == a + b[..|b| - 1];
      ItemRecordsConcat(a, b[..|b| - 1]);
    }
  }

  lemma OneItem(item: Item)
    ensures ItemRecords([item]) == if item.message.Record? then [item.message.record] else []
  {
    assert [item][..0] == [];
  }

  lemma OnePayload(id: Id, record: CaptureRecord)
    ensures Payloads(id, [record]) == if record.id == id then [PayloadOf(record)] else []
  {
    OneRecord(id, record);
    if record.id == id {
      assert [record][..0] == [];
      assert AsPayloads([record]) == [PayloadOf(record)];
    } else {
      assert AsPayloads([]) == [];
    }
  }

  lemma OneRecord(id: Id, record: CaptureRecord)
    ensures RecordsOf(id, [record]) == if record.id == id then [record] else []
  {
    assert [record][..0] == [] && RecordsOf(id, []) == [];
  }

  lemma PayloadsOfItem(id: Id, a: CaptureRecord)
    requires a.id == id
    ensures ItemRecords([RecordItem(a)]) == [a] && Payloads(id, [a]) == [PayloadOf(a)]
  {
    OneItem(RecordItem(a));
    OnePayload(id, a);
  }

  lemma TwoItems(a: Item, b: Item)
    ensures ItemRecords([a, b]) == ItemRecords([a]) + ItemRecords([b])
  {
    assert [a, b] == [a] + [b];
    ItemRecordsConcat([a], [b]);
  }

  lemma JoinPayloads(id: Id, a: seq<CaptureRecord>, b: seq<CaptureRecord>, p: Payload, q: Payload)
    requires Payloads(id, a) == [p] && Payloads(id, b) == [q]
    ensures Payloads(id, a + b) == [p, q]
  {
    PayloadsConcat(id, a, b);
  }

  lemma PayloadsOfItems(id: Id, a: CaptureRecord, b: CaptureRecord)
    requires a.id == b.id == id
    ensures Payloads(id, ItemRecords([RecordItem(a), RecordItem(b)])) == [PayloadOf(a), PayloadOf(b)]
  {
    PayloadsOfItem(id, a);
    PayloadsOfItem(id, b);
    TwoItems(RecordItem(a), RecordItem(b));
    JoinPayloads(id, [a], [b], PayloadOf(a), PayloadOf(b));
  }

  /** The records on the outbox carry what the counters let through. */
  lemma SentItemsPayloads(id: Id, chunk: Chunk, limit: nat, captured: nat, truncated: bool)
    ensures Payloads(id, ItemRecords(SentItems(id, chunk, limit, captured, truncated)))
      == SentBy(chunk, limit, captured, truncated)
  {
    var persist := Min(Room(limit, captured), |chunk.data|);
    var output := OutputRecord(id, 0, chunk.stream, chunk.data[..persist]);
    var mark := TruncatedRecord(id, 0, limit);
    var cut := persist < |chunk.data| && !truncated;
    if persist > 0 && cut {
      PayloadsOfItems(id, output, mark);
    } else if persist > 0 {
      PayloadsOfItem(id, output);
    } else if cut {
      PayloadsOfItem(id, mark);
    }
  }

  function Handled(w: Writer): seq<CaptureRecord> {
    Tried(w.fates) + w.records
  }

  /** All records from the first that was tried to the last that is not sent yet. */
  function AllRecords(s: Pipe): seq<CaptureRecord> {
    Handled(s.writer) + ItemRecords(s.queue) + ItemRecords(s.outbox)
  }

  /** The counters count, and the execution's records are what the limit lets through of what the
      daemon has consumed. */
  ghost predicate Faithful(s: Pipe) {
    |Flatten(s.emitted)| < TWO_64 ==>
      && s.captured == |Flatten(s.consumed)|
      && (s.truncated <==> s.captured > s.limit)
      && Payloads(s.id, AllRecords(s)) == PersistedAll(s.consumed, s.limit)
  }

  function Chunks(frames: seq<Frame>): seq<Chunk> {
    if frames == [] then []
    else
      var last := frames[|frames| - 1];
      Chunks(frames[..|frames| - 1]) + (if last.OutputFrame? then [last.chunk] else [])
  }

  lemma {:induction false} ChunksConcat(a: seq<Frame>, b: seq<Frame>)
    ensures Chunks(a + b) == Chunks(a) + Chunks(b)
    decreases |b|
  {
    if b == [] {
      assert a + b == a;
    } else {
      assert (a + b)[..|a + b| - 1] == a + b[..|b| - 1];
      ChunksConcat(a, b[..|b| - 1]);
    }
  }

  ghost predicate InOrder(s: Pipe) {
    s.emitted == s.consumed + Chunks(s.frames)
  }

  lemma FramePushed(frames: seq<Frame>, frame: Frame)
    ensures Chunks(frames + [frame]) == Chunks(frames) + (if frame.OutputFrame? then [frame.chunk] else [])
  {
    assert (frames + [frame])[..|frames|] == frames;
  }

  lemma FramePopped(frames: seq<Frame>)
    requires frames != []
    ensures Chunks(frames) == (if frames[0].OutputFrame? then [frames[0].chunk] else []) + Chunks(frames[1..])
  {
    assert frames == [frames[0]] + frames[1..];
    ChunksConcat([frames[0]], frames[1..]);
    assert [frames[0]][..0] == [];
  }

  lemma ReadInOrder(s: Pipe)
    requires InOrder(s) && s.frames != []
    ensures InOrder(Read(s))
  {
    FramePopped(s.frames);
  }

  lemma FramesUntouched(s: Pipe, step: Step)
    requires !step.Emit? && !step.SendFinished? && !step.ReadFrame?
    ensures var t := Next(s, step);
      t.emitted == s.emitted && t.consumed == s.consumed && t.frames == s.frames
  {
  }

  lemma SupervisorInOrder(s: Pipe, chunk: Chunk, outcome: Outcome)
    requires InOrder(s)
    ensures InOrder(Next(s, Emit(chunk))) && InOrder(Next(s, SendFinished(outcome)))
  {
    FramePushed(s.frames, OutputFrame(chunk));
    FramePushed(s.frames, FinishedFrame(outcome));
  }

  lemma InOrderKept(s: Pipe, step: Step)
    requires InOrder(s)
    ensures InOrder(Next(s, step))
  {
    match step
    case Emit(chunk) => SupervisorInOrder(s, chunk, Exited(0));
    case SendFinished(outcome) => SupervisorInOrder(s, Chunk(Stdout, []), outcome);
    case ReadFrame => if s.frames != [] { ReadInOrder(s); }
    case _ => FramesUntouched(s, step);
  }

  lemma FlattenSnoc(chunks: seq<Chunk>, chunk: Chunk)
    ensures Flatten(chunks + [chunk]) == Flatten(chunks) + chunk.data
  {
    assert (chunks + [chunk])[..|chunks|] == chunks;
  }

  lemma PersistedSnoc(chunks: seq<Chunk>, chunk: Chunk, limit: nat)
    ensures PersistedAll(chunks + [chunk], limit)
      == PersistedAll(chunks, limit) + Persisted(chunk, limit, |Flatten(chunks)|)
  {
    assert (chunks + [chunk])[..|chunks|] == chunks;
  }

  /** What the limit lets through grows with the consumed chunks as the outbox does. */
  lemma ConsumedMore(id: Id, records: seq<CaptureRecord>, consumed: seq<Chunk>, chunk: Chunk, limit: nat,
                     captured: nat, truncated: bool)
    requires captured == |Flatten(consumed)| && (truncated <==> captured > limit)
    requires Payloads(id, records) == PersistedAll(consumed, limit)
    ensures Payloads(id, records + ItemRecords(SentItems(id, chunk, limit, captured, truncated)))
      == PersistedAll(consumed + [chunk], limit)
  {
    SentItemsPayloads(id, chunk, limit, captured, truncated);
    PersistedSnoc(consumed, chunk, limit);
    PayloadsConcat(id, records, ItemRecords(SentItems(id, chunk, limit, captured, truncated)));
  }

  lemma ConsumedFits(s: Pipe)
    requires InOrder(s)
    ensures |Flatten(s.consumed)| <= |Flatten(s.emitted)|
  {
    assert s.emitted[..|s.consumed|] == s.consumed;
    FlattenMonotonic(s.emitted, |s.consumed|);
  }

  /** A frame of output puts its records behind all others. */
  lemma ReadAppends(s: Pipe)
    requires s.outbox == [] && s.frames != [] && s.frames[0].OutputFrame?
    ensures AllRecords(Read(s)) == AllRecords(s) + ItemRecords(Read(s).outbox)
  {
    var h, q := Handled(s.writer), ItemRecords(s.queue);
    assert ItemRecords(s.outbox) == [] && h + q + [] == h + q;
  }

  lemma ReadCounts(s: Pipe)
    requires Faithful(s) && InOrder(s) && s.outbox == [] && s.frames != [] && s.frames[0].OutputFrame?
    requires |Flatten(s.emitted)| < TWO_64
    ensures Read(s).captured == |Flatten(Read(s).consumed)|
    ensures Read(s).truncated <==> Read(s).captured > s.limit
  {
    ReadInOrder(s);
    ConsumedFits(Read(s));
    FlattenSnoc(s.consumed, s.frames[0].chunk);
  }

  lemma ReadPayloads(s: Pipe)
    requires Faithful(s) && InOrder(s) && s.outbox == [] && s.frames != [] && s.frames[0].OutputFrame?
    requires |Flatten(s.emitted)| < TWO_64
    ensures Payloads(s.id, AllRecords(Read(s))) == PersistedAll(Read(s).consumed, s.limit)
  {
    ReadAppends(s);
    ConsumedMore(s.id, AllRecords(s), s.consumed, s.frames[0].chunk, s.limit, s.captured, s.truncated);
  }

  /** A frame of output: the counters and the outbox move together. */
  lemma ReadFaithful(s: Pipe)
    requires Faithful(s) && InOrder(s) && s.outbox == [] && s.frames != [] && s.frames[0].OutputFrame?
    ensures Faithful(Read(s))
  {
    if |Flatten(s.emitted)| < TWO_64 {
      ReadCounts(s);
      ReadPayloads(s);
    }
  }

  /** Moving records along the queues, or queueing those of others, changes none of them. */
  lemma MoveFaithful(s: Pipe, t: Pipe)
    requires Faithful(s) && t.id == s.id && t.limit == s.limit && t.emitted == s.emitted
    requires t.consumed == s.consumed && t.captured == s.captured && t.truncated == s.truncated
    requires Payloads(s.id, AllRecords(t)) == Payloads(s.id, AllRecords(s))
    ensures Faithful(t)
  {
  }

  lemma Regroup(h: seq<CaptureRecord>, i: seq<CaptureRecord>, q: seq<CaptureRecord>, o: seq<CaptureRecord>)
    ensures (h + i) + q + o == h + (i + q) + o
    ensures h + (i + q) + o == (h + i) + (q + o)
  {
  }

  lemma SendKeepsRecords(s: Pipe)
    requires s.outbox != []
    ensures AllRecords(Next(s, SendOne)) == AllRecords(s)
  {
    var head := [s.outbox[0]];
    ItemRecordsConcat(s.queue, head);
    assert s.outbox == head + s.outbox[1..];
    ItemRecordsConcat(head, s.outbox[1..]);
    var h, q, o := Handled(s.writer), ItemRecords(s.queue), ItemRecords(s.outbox[1..]);
    Regroup(h, q, ItemRecords(head), o);
  }

  lemma TakeHandles(w: Writer, message: Message, storage: bool)
    ensures Handled(Take(w, message, storage)) == Handled(w) + (if message.Record? then [message.record] else [])
  {
    if message.Record? {
      FlushTries(w.(records := w.records + [message.record]), storage);
    } else {
      FlushTries(w, storage);
    }
  }

  lemma TakeKeepsRecords(s: Pipe, storage: bool)
    requires s.queue != []
    ensures AllRecords(WriterTake(s, storage)) == AllRecords(s)
  {
    TakeHandles(s.writer, s.queue[0].message, storage);
    var head := [s.queue[0]];
    assert s.queue == head + s.queue[1..];
    ItemRecordsConcat(head, s.queue[1..]);
    OneItem(s.queue[0]);
    var h, q, o := Handled(s.writer), ItemRecords(s.queue[1..]), ItemRecords(s.outbox);
    Regroup(h, ItemRecords(head), q, o);
  }

  lemma ForeignPayloads(id: Id, h: seq<CaptureRecord>, q: seq<CaptureRecord>, r: seq<CaptureRecord>,
                        o: seq<CaptureRecord>)
    requires Payloads(id, r) == []
    ensures Payloads(id, h + (q + r) + o) == Payloads(id, h + q + o)
  {
    Regroup(h, q, r, o);
    PayloadsConcat(id, h + q, r + o);
    PayloadsConcat(id, r, o);
    PayloadsConcat(id, h + q, o);
  }

  lemma OthersKeepPayloads(s: Pipe, message: Message)
    requires message.Record? ==> message.record.id != s.id
    ensures Payloads(s.id, AllRecords(s.(queue := s.queue + [Item(message, false)])))
      == Payloads(s.id, AllRecords(s))
  {
    var item := Item(message, false);
    ItemRecordsConcat(s.queue, [item]);
    OneItem(item);
    if message.Record? { OnePayload(s.id, message.record); }
    ForeignPayloads(s.id, Handled(s.writer), ItemRecords(s.queue), ItemRecords([item]), ItemRecords(s.outbox));
  }

  lemma ReadFrameFaithful(s: Pipe)
    requires Faithful(s) && InOrder(s)
    ensures Faithful(Next(s, ReadFrame))
  {
    if s.stage == Reading && s.outbox == [] && s.frames != [] {
      if s.frames[0].OutputFrame? {
        ReadFaithful(s);
      } else {
        OneItem(Item(Barrier, true));
        MoveFaithful(s, Read(s));
      }
    }
  }

  lemma EmitFaithful(s: Pipe, chunk: Chunk)
    requires Faithful(s)
    ensures Faithful(Next(s, Emit(chunk)))
  {
    FlattenSnoc(s.emitted, chunk);
  }

  lemma SendOneFaithful(s: Pipe)
    requires Faithful(s)
    ensures Faithful(Next(s, SendOne))
  {
    if s.outbox != [] {
      SendKeepsRecords(s);
      MoveFaithful(s, Next(s, SendOne));
    }
  }

  lemma OthersSendFaithful(s: Pipe, message: Message)
    requires Faithful(s)
    ensures Faithful(Next(s, OthersSend(message)))
  {
    if !(message.Record? && message.record.id == s.id) {
      OthersKeepPayloads(s, message);
      MoveFaithful(s, Next(s, OthersSend(message)));
    }
  }

  lemma WriterFaithful(s: Pipe, storage: bool)
    requires Faithful(s)
    ensures Faithful(Next(s, WriterTakes(storage))) && Faithful(Next(s, WriterFlushes(storage)))
  {
    if s.queue != [] {
      TakeKeepsRecords(s, storage);
      MoveFaithful(s, WriterTake(s, storage));
    }
    FlushTries(s.writer, storage);
    MoveFaithful(s, s.(writer := Flush(s.writer, storage)));
  }

  lemma EndFaithful(s: Pipe, now: int)
    requires Faithful(s) && s.stage.Answered?
    ensures Faithful(End(s, now))
  {
    MoveFaithful(s, End(s, now));
  }

  lemma RowsFaithful(s: Pipe, rows: Rows)
    requires Faithful(s)
    ensures Faithful(s.(writer := s.writer.(rows := rows)))
  {
    MoveFaithful(s, s.(writer := s.writer.(rows := rows)));
  }

  lemma FaithfulKept(s: Pipe, step: Step)
    requires Faithful(s) && InOrder(s) && !step.Break?
    ensures Faithful(Next(s, step))
  {
    match step
    case Emit(chunk) => EmitFaithful(s, chunk);
    case ReadFrame => ReadFrameFaithful(s);
    case SendOne => SendOneFaithful(s);
    case OthersSend(message) => OthersSendFaithful(s, message);
    case WriterTakes(storage) => WriterFaithful(s, storage);
    case WriterFlushes(storage) => WriterFaithful(s, storage);
    case OtherCommand(command) => RowsFaithful(s, Apply(s.writer.rows, command));
    case WriteEnd(now) => if s.stage.Answered? { EndFaithful(s, now); }
    case CloseReader(stream) => MoveFaithful(s, s.(open := s.open - {stream}));
    case SendFinished(outcome) => MoveFaithful(s, Next(s, step));
  }

  // ---------------------------------------------------------------------------------------------
  // The barrier comes after everything the execution has to write
  // ---------------------------------------------------------------------------------------------

  function Lane(s: Pipe): seq<Item> {
    s.queue + s.outbox
  }

  predicate Own(item: Item, id: Id) {
    item.message.Record? && item.message.record.id == id
  }

  ghost predicate BarrierLast(lane: seq<Item>, id: Id) {
    && (forall i | 0 <= i < |lane| && lane[i].mine :: lane[i].message.Barrier?)
    && (forall i, j | 0 <= i < j < |lane| && lane[i].mine :: !lane[j].mine && !Own(lane[j], id))
  }

  ghost predicate HasBarrier(lane: seq<Item>) {
    exists i :: 0 <= i < |lane| && lane[i].mine
  }

  ghost predicate Clear(lane: seq<Item>, id: Id) {
    forall i | 0 <= i < |lane| :: !lane[i].mine && !Own(lane[i], id)
  }

  predicate PastBarrier(stage: Stage) {
    stage.Answered? || stage.Ended? || stage.Overtaken?
  }

  ghost predicate Ordered(s: Pipe) {
    && BarrierLast(Lane(s), s.id)
    && (s.stage.Reading? ==> !HasBarrier(Lane(s)))
    && (s.stage.Flushing? ==> HasBarrier(Lane(s)))
    && (PastBarrier(s.stage) ==> Clear(Lane(s), s.id) && NoneOf(s.writer.records, s.id))
  }

  /** The supervisor's final frame is its last, and comes after both readers are done. */
  ghost predicate FinalFrameLast(s: Pipe) {
    && (forall i | 0 <= i < |s.frames| && s.frames[i].FinishedFrame? :: i == |s.frames| - 1 && s.finishedSent)
    && (s.finishedSent ==> s.open == {})
    && (s.stage.Flushing? || PastBarrier(s.stage) ==> s.finishedSent && s.frames == [])
  }

  lemma FinalFrameKept(s: Pipe, step: Step)
    requires FinalFrameLast(s)
    ensures FinalFrameLast(Next(s, step))
  {
    if step.ReadFrame? && s.frames != [] {
      assert forall i | 0 <= i < |s.frames[1..]| :: s.frames[1..][i] == s.frames[i + 1];
    }
  }

  lemma LaneReceives(lane: seq<Item>, more: seq<Item>, id: Id)
    requires BarrierLast(lane, id) && !HasBarrier(lane)
    requires forall i | 0 <= i < |more| :: !more[i].mine
    ensures BarrierLast(lane + more, id) && !HasBarrier(lane + more)
  {
  }

  lemma LaneEnds(lane: seq<Item>, id: Id)
    requires BarrierLast(lane, id) && !HasBarrier(lane)
    ensures BarrierLast(lane + [Item(Barrier, true)], id) && HasBarrier(lane + [Item(Barrier, true)])
  {
    assert (lane + [Item(Barrier, true)])[|lane|].mine;
  }

  lemma LaneInserts(a: seq<Item>, item: Item, b: seq<Item>, id: Id)
    requires BarrierLast(a + b, id) && !item.mine && !Own(item, id)
    ensures BarrierLast(a + [item] + b, id)
    ensures HasBarrier(a + [item] + b) <==> HasBarrier(a + b)
    ensures Clear(a + b, id) ==> Clear(a + [item] + b, id)
  {
    var lane, longer := a + b, a + [item] + b;
    assert forall i | 0 <= i < |a| :: longer[i] == lane[i];
    assert forall i | |a| <= i < |lane| :: longer[i + 1] == lane[i];
    assert forall i | |a| < i < |longer| :: longer[i] == lane[i - 1];
  }

  lemma LanePops(lane: seq<Item>, id: Id)
    requires BarrierLast(lane, id) && lane != []
    ensures BarrierLast(lane[1..], id)
    ensures lane[0].mine ==> Clear(lane[1..], id)
    ensures !lane[0].mine ==> (HasBarrier(lane[1..]) <==> HasBarrier(lane))
    ensures HasBarrier(lane[1..]) ==> HasBarrier(lane)
    ensures Clear(lane, id) ==> Clear(lane[1..], id)
  {
    assert forall i | 0 <= i < |lane| - 1 :: lane[1..][i] == lane[i + 1];
    if HasBarrier(lane) && !lane[0].mine {
      var i :| 0 <= i < |lane| && lane[i].mine;
      assert lane[1..][i - 1].mine;
    }
  }

  lemma ReadOrdered(s: Pipe)
    requires Ordered(s) && s.stage == Reading && s.outbox == [] && s.frames != []
    ensures Ordered(Read(s))
  {
    assert Lane(s) == s.queue;
    if s.frames[0].FinishedFrame? {
      LaneEnds(s.queue, s.id);
    } else {
      LaneReceives(s.queue, Read(s).outbox, s.id);
    }
  }

  lemma SendOrdered(s: Pipe)
    requires Ordered(s)
    ensures Ordered(Next(s, SendOne))
  {
    if s.outbox != [] {
      assert Lane(Next(s, SendOne)) == Lane(s);
    }
  }

  lemma OthersOrdered(s: Pipe, message: Message)
    requires Ordered(s)
    ensures Ordered(Next(s, OthersSend(message)))
  {
    if !Own(Item(message, false), s.id) {
      LaneInserts(s.queue, Item(message, false), s.outbox, s.id);
    }
  }

  lemma WriterOrdered(s: Pipe, storage: bool)
    requires Ordered(s) && s.queue != []
    ensures Ordered(WriterTake(s, storage))
  {
    var t := WriterTake(s, storage);
    assert Lane(s) == [s.queue[0]] + Lane(t) && Lane(s)[1..] == Lane(t);
    LanePops(Lane(s), s.id);
    if s.queue[0].message.Record? {
      FlushTries(s.writer.(records := s.writer.records + [s.queue[0].message.record]), storage);
    } else {
      FlushTries(s.writer, storage);
    }
  }

  lemma OrderedKept(s: Pipe, step: Step)
    requires Ordered(s) && !step.Break?
    ensures Ordered(Next(s, step))
  {
    match step
    case ReadFrame =>
      if s.stage == Reading && s.outbox == [] && s.frames != [] { ReadOrdered(s); }
    case SendOne => SendOrdered(s);
    case OthersSend(message) => OthersOrdered(s, message);
    case WriterTakes(storage) =>
      if s.queue != [] { WriterOrdered(s, storage); }
    case WriterFlushes(storage) =>
      FlushTries(s.writer, storage);
    case WriteEnd(_) =>
    case _ =>
  }

  // ---------------------------------------------------------------------------------------------
  // The log
  // ---------------------------------------------------------------------------------------------

  /** What a step of the pipe is to the writer and its tables. */
  function WriterStep(s: Pipe, step: Step): Option<CaptureWriter.Step> {
    match step
    case ReadFrame =>
      if s.stage == Reading && s.outbox == [] && s.frames != [] && s.frames[0].StartedFrame?
      then Some(Other(MarkRunning(s.id, s.frames[0].pid, s.frames[0].pgid, 0))) else None
    case WriterTakes(storage) =>
      if s.queue != [] then Some(TakeNext(s.queue[0].message, storage)) else None
    case WriterFlushes(storage) => Some(FlushNow(storage))
    case OtherCommand(command) =>
      if command.AppendCaptureBatch? || Creates(command, s.id) then None else Some(Other(command))
    case WriteEnd(now) =>
      if s.stage.Answered? && s.stage.ok && s.id in s.writer.rows
         && !s.writer.rows[s.id].execution.state.IsTerminal()
      then Some(Other(Finish(s.id, StateFor(s.stage.outcome), s.stage.outcome, now))) else None
    case _ => None
  }

  lemma WriterFollows(s: Pipe, step: Step)
    ensures Next(s, step).id == s.id && Next(s, step).limit == s.limit
    ensures var w := WriterStep(s, step);
      Next(s, step).writer == if w.Some? then CaptureWriter.Next(s.writer, w.value) else s.writer
  {
    if step.WriteEnd? && s.stage.Answered? {
      EndFollows(s, step.now);
    } else if step.ReadFrame? && s.frames != [] {
      ReadFollows(s);
    }
  }

  lemma EndFollows(s: Pipe, now: int)
    requires s.stage.Answered?
    ensures var w := WriterStep(s, WriteEnd(now));
      End(s, now).writer == if w.Some? then CaptureWriter.Next(s.writer, w.value) else s.writer
  {
  }

  lemma ReadFollows(s: Pipe)
    requires s.frames != []
    ensures Read(s).id == s.id && Read(s).limit == s.limit
    ensures Read(s).writer ==
      if s.frames[0].StartedFrame?
      then CaptureWriter.Next(s.writer, Other(MarkRunning(s.id, s.frames[0].pid, s.frames[0].pgid, 0))) else s.writer
  {
  }

  ghost predicate LogOk(s: Pipe) {
    && RowsOk(s.writer.rows)
    && WriterOk(s.writer)
    && (s.id in s.writer.rows ==> Refines(s.writer, s.id, []))
  }

  lemma RowsKept(w: Writer, step: CaptureWriter.Step)
    requires RowsOk(w.rows)
    ensures RowsOk(CaptureWriter.Next(w, step).rows)
  {
    match step
    case TakeNext(Record(record), storage) =>
      var grown := w.records + [record];
      if BatchAccepted(w.rows, grown) { BatchKeeps(w.rows, grown); }
    case TakeNext(Barrier, storage) =>
      if BatchAccepted(w.rows, w.records) { BatchKeeps(w.rows, w.records); }
    case FlushNow(storage) =>
      if BatchAccepted(w.rows, w.records) { BatchKeeps(w.rows, w.records); }
    case Other(command) =>
      ApplyKeeps(w.rows, command);
  }

  lemma LogKept(s: Pipe, step: Step)
    requires LogOk(s)
    ensures LogOk(Next(s, step))
  {
    WriterFollows(s, step);
    var w := WriterStep(s, step);
    if w.Some? {
      RowsKept(s.writer, w.value);
      NextKeeps(s.writer, w.value);
      if s.id !in s.writer.rows {
        AbsentStays(s.writer, w.value, s.id);
      } else if w.value.Other? && Prunes(w.value.command, s.id) {
        PruneSparesOrRemoves(s.writer.rows, w.value.command, s.id);
      } else {
        NextRefines(s.writer, w.value, s.id, []);
      }
    }
  }

  lemma AbsentStays(w: Writer, step: CaptureWriter.Step, id: Id)
    requires id !in w.rows && (step.Other? ==> !Creates(step.command, id) && !step.command.AppendCaptureBatch?)
    ensures id !in CaptureWriter.Next(w, step).rows
  {
    match step
    case TakeNext(Record(record), storage) => BatchAddsNoRow(w.rows, w.records + [record]);
    case TakeNext(Barrier, storage) => BatchAddsNoRow(w.rows, w.records);
    case FlushNow(storage) => BatchAddsNoRow(w.rows, w.records);
    case Other(command) =>
  }

  lemma BatchAddsNoRow(rows: Rows, records: seq<CaptureRecord>)
    ensures BatchAccepted(rows, records) ==> AppendBatch(rows, records).Keys == rows.Keys
  {
  }

  lemma PruneSparesOrRemoves(rows: Rows, command: Command, id: Id)
    requires id in rows && Prunes(command, id)
    ensures id in Apply(rows, command) ==> Apply(rows, command)[id] == rows[id]
  {
  }

  /** Once this task has written the final event, the row says what the final frame said and nothing
      follows; retention may remove it. */
  ghost predicate EndIsLast(s: Pipe) {
    s.stage.Ended? && s.id in s.writer.rows ==>
      var row := s.writer.rows[s.id];
      && row.execution.state == StateFor(s.stage.outcome) && row.execution.outcome == Some(s.stage.outcome)
      && EventLog.EndIsLast(row)
  }

  lemma {:induction false} NoRecordsOf(id: Id, records: seq<CaptureRecord>)
    requires NoneOf(records, id)
    ensures RecordsOf(id, records) == []
    decreases |records|
  {
    if records != [] {
      NoRecordsOf(id, records[..|records| - 1]);
    }
  }

  lemma BatchSpares(rows: Rows, records: seq<CaptureRecord>, id: Id)
    requires BatchAccepted(rows, records) && id in rows && NoneOf(records, id)
    ensures id in AppendBatch(rows, records) && AppendBatch(rows, records)[id] == rows[id]
  {
    BatchIsPerExecution(rows, records, id);
    NoRecordsOf(id, records);
  }

  lemma WriterSpares(w: Writer, step: CaptureWriter.Step, id: Id)
    requires id in w.rows && w.rows[id].execution.state.IsTerminal()
    requires NoneOf(w.records, id) && LeavesCaptureOf(step, id)
    requires step.TakeNext? && step.message.Record? ==> step.message.record.id != id
    ensures var rows := CaptureWriter.Next(w, step).rows; id in rows && rows[id] == w.rows[id]
  {
    match step
    case TakeNext(Record(record), storage) =>
      var grown := w.records + [record];
      if BatchAccepted(w.rows, grown) { BatchSpares(w.rows, grown, id); }
    case TakeNext(Barrier, storage) =>
      if BatchAccepted(w.rows, w.records) { BatchSpares(w.rows, w.records, id); }
    case FlushNow(storage) =>
      if BatchAccepted(w.rows, w.records) { BatchSpares(w.rows, w.records, id); }
    case Other(command) =>
  }

  lemma EndIsLastKept(s: Pipe, step: Step)
    requires EndIsLast(s) && Ordered(s)
    ensures EndIsLast(Next(s, step))
  {
    WriterFollows(s, step);
    var w := WriterStep(s, step);
    if s.stage.Ended? && w.Some? {
      if s.id !in s.writer.rows {
        AbsentStays(s.writer, w.value, s.id);
      } else if w.value.Other? && Prunes(w.value.command, s.id) {
        PruneSparesOrRemoves(s.writer.rows, w.value.command, s.id);
      } else {
        if step.WriterTakes? { assert s.queue[0] == Lane(s)[0]; }
        WriterSpares(s.writer, w.value, s.id);
      }
    }
  }

  // ---------------------------------------------------------------------------------------------
  // What the barrier's answer is worth
  // ---------------------------------------------------------------------------------------------

  /** The barrier was answered positively. */
  predicate Heard(stage: Stage) {
    stage.Ended? || stage.Overtaken? || (stage.Answered? && stage.ok)
  }

  /** Since the barrier before its own, nothing of this execution was lost. */
  ghost predicate Covered(s: Pipe) {
    Heard(s.stage) ==> s.since <= |s.writer.fates| && NoneLost(s.writer.fates[s.since..], s.id)
  }

  /** What a step of the writer adds to the fates of the records. */
  lemma FatesGrow(w: Writer, step: CaptureWriter.Step)
    ensures var more := CaptureWriter.Next(w, step);
      && w.fates <= more.fates
      && (forall i | |w.fates| <= i < |more.fates| ::
            more.fates[i].record in w.records
            || (step.TakeNext? && step.message.Record? && more.fates[i].record == step.message.record))
  {
  }

  lemma OwnBarrierCovers(s: Pipe, storage: bool)
    requires WriterOk(s.writer) && s.queue != [] && s.queue[0].message.Barrier?
    requires s.queue[0].mine && s.stage.Flushing?
    ensures Covered(WriterTake(s, storage)) && WriterTake(s, storage).since == s.writer.mark
  {
    BarrierTellsOfLoss(s.writer, storage);
  }

  lemma OthersCover(s: Pipe, step: Step)
    requires Covered(s) && Ordered(s) && Heard(s.stage) && !step.Break?
    ensures Covered(Next(s, step))
  {
    WriterFollows(s, step);
    var w := WriterStep(s, step);
    if w.Some? {
      FatesGrow(s.writer, w.value);
      var fates, more := s.writer.fates, CaptureWriter.Next(s.writer, w.value).fates;
      if step.WriterTakes? { assert s.queue[0] == Lane(s)[0]; }
      forall i | 0 <= i < |more| - s.since && more[s.since..][i].record.id == s.id
        ensures more[s.since..][i].committed
      {
        assert s.since + i < |fates| ==> fates[s.since..][i] == more[s.since + i];
      }
    }
  }

  lemma CoveredKept(s: Pipe, step: Step)
    requires Covered(s) && Ordered(s) && WriterOk(s.writer) && !step.Break?
    ensures Covered(Next(s, step))
  {
    if Heard(s.stage) {
      OthersCover(s, step);
    } else if step.WriterTakes? && s.queue != [] && s.queue[0].mine && s.stage.Flushing? {
      assert s.queue[0] == Lane(s)[0];
      OwnBarrierCovers(s, step.storage);
    }
  }

  /** All that holds of the pipe as long as its task has not failed. */
  ghost predicate PipeOk(s: Pipe) {
    LogOk(s) && (s.stage.Failed? || (InOrder(s) && Faithful(s) && FinalFrameLast(s) && Ordered(s) && EndIsLast(s)
                                   && Covered(s)))
  }

  lemma PipeKept(s: Pipe, step: Step)
    requires PipeOk(s)
    ensures PipeOk(Next(s, step))
  {
    LogKept(s, step);
    if s.stage.Failed? {
      assert Next(s, step).stage.Failed?;
    } else if !step.Break? {
      InOrderKept(s, step);
      FaithfulKept(s, step);
      FinalFrameKept(s, step);
      OrderedKept(s, step);
      EndIsLastKept(s, step);
      CoveredKept(s, step);
    }
  }

  function RunPipe(s: Pipe, steps: seq<Step>): Pipe {
    if steps == [] then s else Next(RunPipe(s, steps[..|steps| - 1]), steps[|steps| - 1])
  }

  /** A task that is about to read its supervisor's first frame; others may have records anywhere. */
  ghost predicate Fresh(s: Pipe) {
    && LogOk(s) && s.id in s.writer.rows
    && s.stage == Reading && s.open == {Stdout, Stderr} && !s.finishedSent
    && s.emitted == s.consumed == [] && s.captured == 0 && !s.truncated && s.outbox == []
    && (forall i | 0 <= i < |s.frames| :: s.frames[i].StartedFrame?)
    && Clear(s.queue, s.id)
    && Payloads(s.id, Handled(s.writer)) == [] && NoneOf(ItemRecords(s.queue), s.id)
  }

  lemma {:induction false} NoChunks(frames: seq<Frame>)
    requires forall i | 0 <= i < |frames| :: frames[i].StartedFrame?
    ensures Chunks(frames) == []
    decreases |frames|
  {
    if frames != [] {
      NoChunks(frames[..|frames| - 1]);
    }
  }

  lemma FreshIsOk(s: Pipe)
    requires Fresh(s)
    ensures PipeOk(s)
  {
    NoChunks(s.frames);
    assert Lane(s) == s.queue;
    PayloadsConcat(s.id, Handled(s.writer), ItemRecords(s.queue));
    NoRecordsOf(s.id, ItemRecords(s.queue));
    assert AllRecords(s) == Handled(s.writer) + ItemRecords(s.queue);
  }

  lemma {:induction false} RunIsOk(s: Pipe, steps: seq<Step>)
    requires PipeOk(s)
    ensures PipeOk(RunPipe(s, steps))
    ensures RunPipe(s, steps).id == s.id && RunPipe(s, steps).limit == s.limit
    decreases |steps|
  {
    if steps != [] {
      RunIsOk(s, steps[..|steps| - 1]);
      PipeKept(RunPipe(s, steps[..|steps| - 1]), steps[|steps| - 1]);
      WriterFollows(RunPipe(s, steps[..|steps| - 1]), steps[|steps| - 1]);
    }
  }

  // ---------------------------------------------------------------------------------------------
  // End to end
  // ---------------------------------------------------------------------------------------------

  /** No record of this execution was in a batch the store refused. */
  ghost predicate NothingLost(s: Pipe) {
    NoneLost(s.writer.fates, s.id)
  }

  lemma {:induction false} CommittedIsEverything(fates: seq<Fate>, id: Id)
    requires NoneLost(fates, id)
    ensures RecordsOf(id, Committed(fates)) == RecordsOf(id, Tried(fates))
    decreases |fates|
  {
    if fates != [] {
      var init, last := fates[..|fates| - 1], fates[|fates| - 1];
      CommittedIsEverything(init, id);
      assert Tried(fates) == Tried(init) + [last.record];
      RecordsOfConcat(id, Tried(init), [last.record]);
      RecordsOfConcat(id, Committed(init), if last.committed then [last.record] else []);
      if !last.committed { assert [last.record][..0] == []; }
    }
  }

  /** With the barrier behind it the execution has no record on its way any more. */
  lemma NothingOnItsWay(s: Pipe)
    requires Clear(Lane(s), s.id) && NoneOf(s.writer.records, s.id)
    ensures Payloads(s.id, AllRecords(s)) == Payloads(s.id, Tried(s.writer.fates))
  {
    assert forall i | 0 <= i < |s.queue| :: s.queue[i] == Lane(s)[i];
    assert forall i | 0 <= i < |s.outbox| :: s.outbox[i] == Lane(s)[|s.queue| + i];
    ClearRecords(s.queue, s.id);
    ClearRecords(s.outbox, s.id);
    NoRecordsOf(s.id, s.writer.records);
    DropSilent(s.id, Tried(s.writer.fates), s.writer.records);
    DropSilent(s.id, Handled(s.writer), ItemRecords(s.queue));
    DropSilent(s.id, Handled(s.writer) + ItemRecords(s.queue), ItemRecords(s.outbox));
  }

  lemma DropSilent(id: Id, a: seq<CaptureRecord>, b: seq<CaptureRecord>)
    requires Payloads(id, b) == []
    ensures Payloads(id, a + b) == Payloads(id, a)
  {
    PayloadsConcat(id, a, b);
  }

  lemma {:induction false} ClearRecords(items: seq<Item>, id: Id)
    requires forall i | 0 <= i < |items| :: !Own(items[i], id)
    ensures Payloads(id, ItemRecords(items)) == []
    decreases |items|
  {
    if items != [] {
      var init, last := items[..|items| - 1], items[|items| - 1];
      ClearRecords(init, id);
      if last.message.Record? {
        PayloadsConcat(id, ItemRecords(init), [last.message.record]);
        OnePayload(id, last.message.record);
      } else {
        assert ItemRecords(init) + [] == ItemRecords(init);
      }
    }
  }

  lemma {:induction false} BytesOfCaptured(events: seq<Event>)
    ensures BytesIn(CapturedPayloads(events)) == OutputBytes(events)
    decreases |events|
  {
    if events != [] {
      var init, last := events[..|events| - 1], events[|events| - 1].payload;
      BytesOfCaptured(init);
      BytesInTail(CapturedPayloads(init), last);
      assert CapturedPayloads(init) + [] == CapturedPayloads(init);
    }
  }

  lemma {:induction false} CapturedHas(events: seq<Event>)
    ensures Has(events, ATruncation) <==>
      exists i :: 0 <= i < |CapturedPayloads(events)| && CapturedPayloads(events)[i].CaptureTruncated?
    decreases |events|
  {
    if events != [] {
      var init, last := events[..|events| - 1], events[|events| - 1];
      CapturedHas(init);
      assert events == init + [last];
      HasAfter(init, last, ATruncation);
      if last.payload.CaptureTruncated? {
        assert CapturedPayloads(events)[|CapturedPayloads(init)|].CaptureTruncated?;
      } else {
        assert forall i | 0 <= i < |CapturedPayloads(init)| :: CapturedPayloads(events)[i] == CapturedPayloads(init)[i];
      }
    }
  }

  lemma EndedIsPersisted(s: Pipe)
    requires PipeOk(s) && s.stage.Ended? && NothingLost(s) && |Flatten(s.emitted)| < TWO_64 && s.id in s.writer.rows
    ensures CapturedPayloads(s.writer.rows[s.id].events) == PersistedAll(s.emitted, s.limit)
  {
    NothingOnItsWay(s);
    CommittedIsEverything(s.writer.fates, s.id);
    assert s.consumed + [] == s.consumed;
    assert [] + Payloads(s.id, Committed(s.writer.fates)) == Payloads(s.id, Committed(s.writer.fates));
  }

  /** The log and the row are exactly what the command wrote and how it ended. */
  ghost predicate Complete(s: Pipe, limit: nat, outcome: Outcome)
    requires s.id in s.writer.rows
  {
    var row, written := s.writer.rows[s.id], Flatten(s.emitted);
    && CapturedPayloads(row.events) == PersistedAll(s.emitted, limit)
    && OutputBytes(row.events) == written[..Min(limit, |written|)]
    && (row.execution.outputTruncated <==> |written| > limit)
    && row.execution.capturedBytes == Min(limit, |written|)
    && row.execution.state == StateFor(outcome) && row.execution.outcome == Some(outcome)
    && EventLog.EndIsLast(row)
  }

  lemma EndedIsComplete(s: Pipe)
    requires PipeOk(s) && s.stage.Ended? && NothingLost(s) && |Flatten(s.emitted)| < TWO_64 && s.id in s.writer.rows
    ensures Complete(s, s.limit, s.stage.outcome)
  {
    EndedIsPersisted(s);
    var row := s.writer.rows[s.id];
    CapturedIsThePrefix(s.emitted, s.limit);
    BytesOfCaptured(row.events);
    CapturedHas(row.events);
    TruncationIsMarkedOnce(s.emitted, s.limit);
    assert RowOk(s.id, row);
  }

  /** A record of this execution was lost before the barrier before its own: whoever that barrier
      belonged to was told. */
  ghost predicate LostToAnother(s: Pipe) {
    exists i :: 0 <= i < s.since && i < |s.writer.fates|
                && s.writer.fates[i].record.id == s.id && !s.writer.fates[i].committed
  }

  /** A positive answer means that nothing was lost, except what an earlier barrier was told of. */
  lemma HeardOfAllSince(s: Pipe)
    requires Covered(s) && Heard(s.stage)
    ensures NothingLost(s) <==> !LostToAnother(s)
  {
    var fates := s.writer.fates;
    assert forall i | s.since <= i < |fates| :: fates[i] == fates[s.since..][i - s.since];
    if LostToAnother(s) {
      var i :| 0 <= i < s.since && i < |fates| && fates[i].record.id == s.id && !fates[i].committed;
      assert !NothingLost(s);
    }
  }

  /** Lossless capture. In every run, if the execution ended through its supervisor's final frame,
      its own barrier was answered Ok; so if no record was lost to an earlier barrier of another
      execution, and retention has not removed the row, its log holds exactly the first `limit` bytes
      the command wrote, chunk by chunk and stream by stream in order, one truncation mark after them
      exactly when there were more, and last the final event with the outcome the frame reported. */
  lemma LosslessCapture(start: Pipe, steps: seq<Step>)
    requires Fresh(start) && RunPipe(start, steps).stage.Ended? && start.id in RunPipe(start, steps).writer.rows
    requires !LostToAnother(RunPipe(start, steps))
    requires |Flatten(RunPipe(start, steps).emitted)| < TWO_64
    ensures var s := RunPipe(start, steps);
      s.id == start.id && NothingLost(s) && Complete(s, start.limit, s.stage.outcome)
  {
    FreshIsOk(start);
    RunIsOk(start, steps);
    HeardOfAllSince(RunPipe(start, steps));
    EndedIsComplete(RunPipe(start, steps));
  }

  // ---------------------------------------------------------------------------------------------
  // Barriers of other executions
  // ---------------------------------------------------------------------------------------------

  /** A barrier of another execution that covers records of this one is answered Err, before this
      one's own barrier is taken. */
  ghost predicate Intrudes(s: Pipe, step: Step) {
    && step.WriterTakes? && s.queue != [] && s.queue[0].message.Barrier? && !s.queue[0].mine
    && (s.stage.Reading? || s.stage.Flushing?)
    && Snatches(s.writer, TakeNext(s.queue[0].message, step.storage), s.id)
  }

  /** No record of this execution was lost before the barrier before its own. */
  ghost predicate Undisturbed(s: Pipe) {
    && (s.stage.Reading? || s.stage.Flushing? ==> CleanToMark(s.writer, s.id))
    && (Heard(s.stage) ==> s.since <= |s.writer.fates| && NoneLost(s.writer.fates[..s.since], s.id))
  }

  lemma CleanBeforeOwnBarrier(s: Pipe, storage: bool)
    requires CleanToMark(s.writer, s.id) && s.stage.Flushing?
    requires s.queue != [] && s.queue[0].mine && s.queue[0].message.Barrier?
    ensures Undisturbed(WriterTake(s, storage))
  {
    FlushTries(s.writer, storage);
    var fates := WriterTake(s, storage).writer.fates;
    assert fates[..s.writer.mark] == s.writer.fates[..s.writer.mark];
  }

  lemma UndisturbedKept(s: Pipe, step: Step)
    requires Undisturbed(s) && Ordered(s) && WriterOk(s.writer) && !Intrudes(s, step) && !step.Break?
    ensures Undisturbed(Next(s, step))
  {
    WriterFollows(s, step);
    var w := WriterStep(s, step);
    if Heard(s.stage) {
      if w.Some? {
        FatesGrow(s.writer, w.value);
        assert Next(s, step).writer.fates[..s.since] == s.writer.fates[..s.since];
      }
    } else if s.stage.Reading? || s.stage.Flushing? {
      if step.WriterTakes? && s.queue != [] && s.queue[0].mine {
        assert s.queue[0] == Lane(s)[0];
        assert HasBarrier(Lane(s));
        CleanBeforeOwnBarrier(s, step.storage);
      } else if w.Some? {
        CleanKept(s.writer, w.value, s.id);
      }
    }
  }

  lemma {:induction false} SilentIsNone(id: Id, records: seq<CaptureRecord>)
    requires RecordsOf(id, records) == []
    ensures NoneOf(records, id)
    decreases |records|
  {
    if records != [] { SilentIsNone(id, records[..|records| - 1]); }
  }

  lemma FreshIsUndisturbed(s: Pipe)
    requires Fresh(s)
    ensures Undisturbed(s)
  {
    var handled := Handled(s.writer);
    assert |Payloads(s.id, handled)| == 0;
    SilentIsNone(s.id, handled);
    assert forall i | 0 <= i < s.writer.mark :: s.writer.fates[i].record == handled[i];
  }

  ghost predicate NeverIntrudes(s: Pipe, steps: seq<Step>) {
    forall i | 0 <= i < |steps| :: !Intrudes(RunPipe(s, steps[..i]), steps[i])
  }

  lemma EarlierNeverIntrudes(s: Pipe, steps: seq<Step>)
    requires steps != [] && NeverIntrudes(s, steps)
    ensures NeverIntrudes(s, steps[..|steps| - 1])
    ensures !Intrudes(RunPipe(s, steps[..|steps| - 1]), steps[|steps| - 1])
  {
    var init := steps[..|steps| - 1];
    assert forall i | 0 <= i < |init| :: init[..i] == steps[..i] && init[i] == steps[i];
  }

  lemma {:induction false} RunIsUndisturbed(start: Pipe, steps: seq<Step>)
    requires Fresh(start) && NeverIntrudes(start, steps)
    ensures Undisturbed(RunPipe(start, steps))
    decreases |steps|
  {
    FreshIsOk(start);
    if steps == [] {
      FreshIsUndisturbed(start);
    } else {
      var init, last := steps[..|steps| - 1], steps[|steps| - 1];
      EarlierNeverIntrudes(start, steps);
      RunIsUndisturbed(start, init);
      RunIsOk(start, init);
      StaysUndisturbed(RunPipe(start, init), last);
    }
  }

  lemma StaysUndisturbed(s: Pipe, step: Step)
    requires PipeOk(s) && Undisturbed(s) && !Intrudes(s, step)
    ensures Undisturbed(Next(s, step))
  {
    if s.stage.Failed? {
      assert Next(s, step).stage.Failed?;
    } else if !step.Break? {
      UndisturbedKept(s, step);
    }
  }

  /** Lossless capture without a word about losses: if every barrier of another execution that covers
      records of this one is answered Ok, then ending through the supervisor's final frame alone means
      that nothing was lost. */
  lemma LosslessUnlessIntruded(start: Pipe, steps: seq<Step>)
    requires Fresh(start) && RunPipe(start, steps).stage.Ended? && start.id in RunPipe(start, steps).writer.rows
    requires NeverIntrudes(start, steps) && |Flatten(RunPipe(start, steps).emitted)| < TWO_64
    ensures var s := RunPipe(start, steps);
      s.id == start.id && NothingLost(s) && Complete(s, start.limit, s.stage.outcome)
  {
    RunIsUndisturbed(start, steps);
    var s := RunPipe(start, steps);
    assert forall i | 0 <= i < s.since :: s.writer.fates[..s.since][i] == s.writer.fates[i];
    LosslessCapture(start, steps);
  }
}
