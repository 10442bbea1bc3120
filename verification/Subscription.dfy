/** A live subscription (src/daemon.rs, src/client.rs): a lossy broadcast merged with durable replay. */
module Subscription {
  import opened Model
  import opened EventLog
  import opened Paging

  const BROADCAST_CAPACITY: nat := 2048
  const REPLAY_BYTES: nat := 1024 * 1024
  const PROTOCOL_VERSION: nat := 2

  predicate IsFinal(event: Event) {
    event.payload.FinishedWith?
  }

  // ---------------------------------------------------------------------------------------------
  // The daemon's side
  // ---------------------------------------------------------------------------------------------

  datatype Delivery = Delivery(cursor: nat, sent: seq<Event>, stopped: bool)

  /** The events of a page go out one by one, up to the final one. */
  function Deliver(cursor: nat, sent: seq<Event>, events: seq<Event>): Delivery
    decreases |events|
  {
    if events == [] then Delivery(cursor, sent, false)
    else if events[0].seqNo <= cursor then Deliver(cursor, sent, events[1..])
    else if IsFinal(events[0]) then Delivery(events[0].seqNo, sent + [events[0]], true)
    else Deliver(events[0].seqNo, sent + [events[0]], events[1..])
  }

  datatype Ending =
    | SawFinal        // the final event went out
    | CaughtUp        // the execution is terminal and everything went out
    | Rejected        // the requested cursor lies beyond the log
    | ChannelClosed
    | Disconnected
    | StoreFailed

  datatype Phase = Opening | Replaying | Waiting | Closed(ending: Ending)

  /** What a receiver gets: an event, or word that it missed some. */
  datatype Received = Got(event: Event) | Lagged

  class SubscriptionTask {
    const id: Id
    var cursor: nat
    var sent: seq<Event>

    constructor (id: Id, after: nat)
      ensures this.id == id && cursor == after && sent == []
    {
      this.id, cursor, sent := id, after, [];
    }

    /** The loop over one page during replay. */
    method DeliverPage(events: seq<Event>) returns (stopped: bool)
      modifies this
      ensures Delivery(cursor, sent, stopped) == Deliver(old(cursor), old(sent), events)
    {
      var i := 0;
      while i < |events|
        invariant i <= |events|
        invariant Deliver(old(cursor), old(sent), events) == Deliver(cursor, sent, events[i..])
      {
        var event := events[i];
        assert events[i..][0] == event && events[i..][1..] == events[i + 1..];
        i := i + 1;
        if event.seqNo > cursor {
          cursor := event.seqNo;
          sent := sent + [event];
          if IsFinal(event) {
            return true;
          }
        }
      }
      return false;
    }

    /** What the select loop does with one outcome of the broadcast receiver. */
    method Receive(received: Received) returns (next: Phase)
      modifies this
      ensures var r := OnReceive(id, old(cursor), old(sent), received);
        cursor == r.cursor && sent == r.sent && next == r.phase
    {
      if received.Lagged? {
        return Replaying;
      }
      var event := received.event;
      if event.id != id || event.seqNo <= cursor {
        return Waiting;
      }
      if event.seqNo == cursor + 1 {
        sent := sent + [event];
        cursor := cursor + 1;
        return if IsFinal(event) then Closed(SawFinal) else Waiting;
      }
      return Replaying;
    }
  }

  datatype Reaction = Reaction(cursor: nat, sent: seq<Event>, phase: Phase)

  function OnReceive(id: Id, cursor: nat, sent: seq<Event>, received: Received): Reaction {
    if received.Lagged? then Reaction(cursor, sent, Replaying)
    else if received.event.id != id || received.event.seqNo <= cursor then Reaction(cursor, sent, Waiting)
    else if received.event.seqNo != cursor + 1 then Reaction(cursor, sent, Replaying)
    else Reaction(cursor + 1, sent + [received.event], if IsFinal(received.event) then Closed(SawFinal) else Waiting)
  }

  // ---------------------------------------------------------------------------------------------
  // The client's side
  // ---------------------------------------------------------------------------------------------

  /** A frame on the subscription's connection. */
  datatype Frame = EventFrame(version: nat, subscription: Id, event: Event) | OtherFrame

  datatype NextEventError = VersionMismatch(daemon: nat) | WrongSubscription | NotContiguous | UnexpectedFrame

  datatype Answer = Nothing | Handed(event: Event) | Refused(error: NextEventError)

  /** The daemon's next event, in a frame of this subscription. */
  predicate Acceptable(frame: Frame, subscription: Id, nextSeq: nat) {
    && frame.EventFrame? && frame.version == PROTOCOL_VERSION && frame.subscription == subscription
    && frame.event.seqNo == nextSeq + 1
  }

  class ExecutionSubscription {
    const subscription: Id
    var nextSeq: nat

    constructor (subscription: Id, after: nat)
      ensures this.subscription == subscription && nextSeq == after
    {
      this.subscription := subscription;
      nextSeq := after;
    }

    /** The checks on a frame, in the order in which they are made; the last is for contiguity. The
        cursor moves exactly with the events that are handed out. */
    method NextEvent(frame: Option<Frame>) returns (r: Answer)
      modifies this
      ensures frame.None? <==> r == Nothing
      ensures r.Handed? <==> frame.Some? && Acceptable(frame.value, subscription, old(nextSeq))
      ensures r.Handed? ==> r.event == frame.value.event
      ensures r.Refused? ==> (r.error == UnexpectedFrame <==> frame.value.OtherFrame?)
      ensures r.Refused? && frame.value.EventFrame? && frame.value.version != PROTOCOL_VERSION ==>
        r.error == VersionMismatch(frame.value.version)
      ensures r.Refused? && r.error == WrongSubscription ==> frame.value.subscription != subscription
      ensures r.Refused? && r.error == NotContiguous ==> frame.value.event.seqNo != old(nextSeq) + 1
      ensures nextSeq == if r.Handed? then old(nextSeq) + 1 else old(nextSeq)
    {
      if frame.None? {
        return Nothing;
      }
      match frame.value {
        case EventFrame(version, from, event) =>
          if version != PROTOCOL_VERSION {
            return Refused(VersionMismatch(version));
          }
          if from != subscription {
            return Refused(WrongSubscription);
          }
          if event.seqNo != nextSeq + 1 {
            return Refused(NotContiguous);
          }
          nextSeq := event.seqNo;
          return Handed(event);
        case OtherFrame =>
          return Refused(UnexpectedFrame);
      }
    }

    /** Reading everything a subscription sends. */
    method Drain(events: seq<Event>) returns (received: seq<Event>, ok: bool)
      modifies this
      ensures ok <==> forall i | 0 <= i < |events| :: events[i].seqNo == old(nextSeq) + 1 + i
      ensures ok ==> received == events && nextSeq == old(nextSeq) + |events|
      ensures received <= events && nextSeq == old(nextSeq) + |received|
    {
      received := [];
      var i := 0;
      while i < |events|
        invariant i <= |events| && received == events[..i] && nextSeq == old(nextSeq) + i
        invariant forall j | 0 <= j < i :: events[j].seqNo == old(nextSeq) + 1 + j
      {
        var next := NextEvent(Some(EventFrame(PROTOCOL_VERSION, subscription, events[i])));
        if !next.Handed? {
          return received, false;
        }
        received := received + [next.event];
        i := i + 1;
      }
      return received, true;
    }
  }

  // ---------------------------------------------------------------------------------------------
  // One subscription among everything else
  // ---------------------------------------------------------------------------------------------

  /** `unsent` are the committed events whose notification is still to come, `abandoned` those whose
      notification never will: their committer failed or was aborted in between. `tampered` records
      that messages were lost, repeated or reordered in a way a broadcast channel does not. */
  datatype Sub = Sub(
    id: Id,
    after: nat,
    row: Row,
    unsent: set<nat>,
    abandoned: set<nat>,
    buffer: seq<Event>,
    lagged: bool,
    tampered: bool,
    phase: Phase,
    closing: bool,
    cursor: nat,
    sent: seq<Event>,
    closedAt: nat)

  datatype Step =
    | CommitStart(pid: int, pgid: int, now: int)
    | CommitCapture(record: CaptureRecord)
    | CommitEnd(state: ExecutionState, outcome: Outcome, now: int)
    | Notify(n: nat)
    | Abandon(n: nat)
    | Foreign(event: Event)
    | Tamper(buffer: seq<Event>)
    | Open
    | ReplayPage
    | ReceiveNext
    | SenderGone
    | Fail(ending: Ending)

  /** A message about this execution is one of its committed events. */
  ghost predicate Genuine(s: Sub, buffer: seq<Event>) {
    forall i | 0 <= i < |buffer| && buffer[i].id == s.id ::
      1 <= buffer[i].seqNo <= |s.row.events| && buffer[i] == s.row.events[buffer[i].seqNo - 1]
  }

  function Committed(s: Sub, row: Row): Sub {
    s.(row := row, unsent := s.unsent + {|s.row.events| + 1})
  }

  /** A full channel drops its oldest message and remembers that the receiver missed one. */
  function Push(s: Sub, event: Event): Sub {
    if |s.buffer| >= BROADCAST_CAPACITY
    then s.(buffer := s.buffer[1..] + [event], lagged := true)
    else s.(buffer := s.buffer + [event])
  }

  function Close(s: Sub, ending: Ending): Sub {
    s.(phase := Closed(ending), closedAt := |s.row.events|)
  }

  function Replayed(s: Sub): Sub {
    var page := ReadPage(s.row.execution, s.row.events, s.cursor, REPLAY_BYTES);
    AfterPage(s, page, Deliver(s.cursor, s.sent, page.events))
  }

  function AfterPage(s: Sub, page: Page, d: Delivery): Sub {
    var t := s.(cursor := d.cursor, sent := d.sent);
    if d.stopped then Close(t, SawFinal)
    else if page.hasMore then t
    else if page.execution.state.IsTerminal() && t.cursor >= page.execution.lastSeq then Close(t, CaughtUp)
    else if s.closing then Close(t, ChannelClosed)
    else t.(phase := Waiting)
  }

  function Reacted(s: Sub, received: Received): Sub {
    var r := OnReceive(s.id, s.cursor, s.sent, received);
    s.(cursor := r.cursor, sent := r.sent, phase := r.phase, closedAt := |s.row.events|)
  }

  ghost function Next(s: Sub, step: Step): Sub {
    match step
    case CommitStart(pid, pgid, now) =>
      if s.row.execution.state == Queued && |s.row.events| + 1 < TWO_63
      then Committed(s, Begun(s.id, s.row, pid, pgid, now)) else s
    case CommitCapture(record) =>
      if record.id == s.id && |s.row.events| + 1 < TWO_63 then Committed(s, Captured(s.row, record)) else s
    case CommitEnd(state, outcome, now) =>
      if !s.row.execution.state.IsTerminal() && state.IsTerminal() && |s.row.events| + 1 < TWO_63
      then Committed(s, Ended(s.id, s.row, state, outcome, now)) else s
    case Notify(n) =>
      if n in s.unsent && 1 <= n <= |s.row.events|
      then Push(s, s.row.events[n - 1]).(unsent := s.unsent - {n}) else s
    case Abandon(n) =>
      if n in s.unsent then s.(unsent := s.unsent - {n}, abandoned := s.abandoned + {n}) else s
    case Foreign(event) =>
      if event.id != s.id then Push(s, event) else s
    case Tamper(buffer) =>
      if Genuine(s, buffer) then s.(buffer := buffer, tampered := true) else s
    case Open =>
      if !s.phase.Opening? then s
      else if s.after > s.row.execution.lastSeq then Close(s, Rejected)
      else s.(phase := Replaying)
    case ReplayPage =>
      if s.phase.Replaying? then Replayed(s) else s
    case ReceiveNext =>
      if !s.phase.Waiting? then s
      else if s.lagged then Reacted(s, Lagged).(lagged := false)
      else if s.buffer == [] then s
      else Reacted(s, Got(s.buffer[0])).(buffer := s.buffer[1..])
    case SenderGone =>
      if s.phase.Waiting? then s.(phase := Replaying, closing := true) else s
    case Fail(ending) =>
      if s.phase.Closed? || !(ending.Disconnected? || ending.StoreFailed?) then s else Close(s, ending)
  }

  // ---------------------------------------------------------------------------------------------
  // Exactness
  // ---------------------------------------------------------------------------------------------

  ghost predicate RowSound(s: Sub) {
    Numbered(s.id, s.row) && |s.row.events| < TWO_63
  }

  /** No event but possibly the last of them is final. */
  ghost predicate FinalOnlyLast(events: seq<Event>) {
    forall i | 0 <= i < |events| - 1 :: !IsFinal(events[i])
  }

  ghost predicate StillOpen(s: Sub) {
    !s.phase.Closed? ==> NotFinal(s.sent)
  }

  /** What has been sent is the segment of the log from the requested cursor to the current one. */
  ghost predicate Exact(s: Sub) {
    && s.after <= s.cursor
    && (s.phase.Opening? || s.cursor > |s.row.events| ==> s.cursor == s.after)
    && (s.cursor > |s.row.events| ==> s.phase.Opening? || s.phase.Closed?)
    && s.sent == if s.cursor <= |s.row.events| then s.row.events[s.after..s.cursor] else []
  }

  /** Why a subscription that was neither disconnected nor failed has ended. */
  ghost predicate EndsRightly(s: Sub) {
    && (s.phase == Closed(SawFinal) ==> s.sent != [] && IsFinal(s.sent[|s.sent| - 1]))
    && (s.phase == Closed(CaughtUp) ==>
          s.row.execution.state.IsTerminal() && s.cursor == s.closedAt <= |s.row.events|)
    && (s.phase == Closed(Rejected) ==> s.after > s.closedAt)
    && (s.phase == Closed(ChannelClosed) ==> s.closing)
  }

  /** While the subscription waits, each event it has not sent is on its way to it. */
  ghost predicate NothingMissed(s: Sub) {
    s.phase.Waiting? && !s.tampered && !s.lagged ==>
      forall i | s.cursor <= i < |s.row.events| ::
        i + 1 in s.unsent || i + 1 in s.abandoned || s.row.events[i] in s.buffer
  }

  ghost predicate SubOk(s: Sub) {
    && RowSound(s) && Genuine(s, s.buffer) && Exact(s)
    && FinalOnlyLast(s.sent) && StillOpen(s) && EndsRightly(s) && NothingMissed(s)
  }

  /** A delivery that sent the segment from one cursor to another, up to a final event if there is one. */
  ghost predicate Delivered(d: Delivery, log: seq<Event>, after: nat, cursor: nat, end: nat) {
    && after <= cursor <= d.cursor <= end <= |log| && d.sent == log[after..d.cursor] && FinalOnlyLast(d.sent)
    && (if d.stopped then d.sent != [] && IsFinal(d.sent[|d.sent| - 1])
        else d.cursor == end && NotFinal(d.sent))
  }

  ghost predicate NotFinal(sent: seq<Event>) {
    sent != [] ==> !IsFinal(sent[|sent| - 1])
  }

  lemma {:induction false} DeliverIsExact(log: seq<Event>, after: nat, cursor: nat, end: nat, sent: seq<Event>)
    requires Contiguous(log) && after <= cursor <= end <= |log| && sent == log[after..cursor]
    requires FinalOnlyLast(sent) && NotFinal(sent)
    ensures Delivered(Deliver(cursor, sent, log[cursor..end]), log, after, cursor, end)
    decreases end - cursor
  {
    if cursor < end {
      var rest := log[cursor..end];
      assert rest[0] == log[cursor] && rest[1..] == log[cursor + 1..end];
      assert sent + [log[cursor]] == log[after..cursor + 1];
      if !IsFinal(log[cursor]) {
        DeliverIsExact(log, after, cursor + 1, end, sent + [log[cursor]]);
      }
    } else {
      assert log[cursor..end] == [];
    }
  }

  lemma AfterPageExact(s: Sub, page: Page, d: Delivery)
    requires s.phase == Replaying && s.after <= s.cursor && page.execution.lastSeq == |s.row.events|
    requires page.execution == s.row.execution
    requires s.cursor <= page.nextSeq <= |s.row.events| && (page.hasMore <==> page.nextSeq < |s.row.events|)
    requires Delivered(d, s.row.events, s.after, s.cursor, page.nextSeq)
    ensures var t := AfterPage(s, page, d);
      && Exact(t) && FinalOnlyLast(t.sent) && StillOpen(t) && EndsRightly(t)
      && (t.phase == Waiting ==> t.cursor == |t.row.events|)
      && t == s.(cursor := t.cursor, sent := t.sent, phase := t.phase, closedAt := t.closedAt)
  {
  }

  lemma AfterPageKeeps(s: Sub, t: Sub)
    requires Genuine(s, s.buffer) && RowSound(s)
    requires t == s.(cursor := t.cursor, sent := t.sent, phase := t.phase, closedAt := t.closedAt)
    requires t.phase == Waiting ==> t.cursor == |t.row.events|
    ensures Genuine(t, t.buffer) && RowSound(t) && NothingMissed(t)
  {
  }

  lemma ReplayedKeeps(s: Sub)
    requires SubOk(s) && s.phase == Replaying
    ensures SubOk(Replayed(s))
  {
    PageIsExact(s.row.execution, s.row.events, s.cursor, REPLAY_BYTES);
    var page := ReadPage(s.row.execution, s.row.events, s.cursor, REPLAY_BYTES);
    DeliverIsExact(s.row.events, s.after, s.cursor, page.nextSeq, s.sent);
    AfterPageExact(s, page, Deliver(s.cursor, s.sent, page.events));
    AfterPageKeeps(s, Replayed(s));
  }

  /** Hearing that messages were missed leads to a replay. */
  lemma LaggedKeeps(s: Sub)
    requires SubOk(s) && s.phase == Waiting
    ensures SubOk(Reacted(s, Lagged).(lagged := false))
  {
  }

  /** Of the messages still to be received none but the first is the event right after the cursor. */
  lemma GenuineTail(s: Sub)
    requires Genuine(s, s.buffer) && s.buffer != []
    ensures Genuine(s, s.buffer[1..])
  {
    assert forall i | 0 <= i < |s.buffer| - 1 :: s.buffer[1..][i] == s.buffer[i + 1];
  }

  lemma IgnoredKeeps(s: Sub)
    requires SubOk(s) && s.phase == Waiting && !s.lagged && s.buffer != []
    requires s.buffer[0].id != s.id || s.buffer[0].seqNo <= s.cursor
    ensures NothingMissed(s.(buffer := s.buffer[1..]))
  {
    forall i | s.cursor <= i < |s.row.events| && s.row.events[i] in s.buffer
      ensures s.row.events[i] in s.buffer[1..]
    {
      assert s.row.events[i].seqNo == i + 1 && s.row.events[i].id == s.id;
    }
  }

  lemma NextIsGenuine(s: Sub)
    requires SubOk(s) && s.phase == Waiting && s.buffer != []
    requires s.buffer[0].id == s.id && s.buffer[0].seqNo == s.cursor + 1
    ensures s.cursor < |s.row.events| && s.buffer[0] == s.row.events[s.cursor]
    ensures s.sent + [s.buffer[0]] == s.row.events[s.after..s.cursor + 1]
  {
  }

  lemma FinalSnoc(sent: seq<Event>, event: Event)
    requires FinalOnlyLast(sent) && NotFinal(sent)
    ensures FinalOnlyLast(sent + [event])
  {
  }

  lemma SentMissesNothing(s: Sub)
    requires RowSound(s) && NothingMissed(s) && s.phase == Waiting && !s.lagged && s.buffer != []
    requires s.cursor < |s.row.events| && s.buffer[0] == s.row.events[s.cursor]
    ensures NothingMissed(s.(buffer := s.buffer[1..], cursor := s.cursor + 1))
  {
    forall i | s.cursor + 1 <= i < |s.row.events| && s.row.events[i] in s.buffer
      ensures s.row.events[i] in s.buffer[1..]
    {
      assert s.row.events[i].seqNo == i + 1;
    }
  }

  lemma SentKeeps(s: Sub)
    requires SubOk(s) && s.phase == Waiting && !s.lagged && s.buffer != []
    requires s.buffer[0].id == s.id && s.buffer[0].seqNo == s.cursor + 1
    ensures NothingMissed(s.(buffer := s.buffer[1..], cursor := s.cursor + 1))
    ensures s.cursor + 1 <= |s.row.events|
    ensures s.sent + [s.buffer[0]] == s.row.events[s.after..s.cursor + 1]
    ensures FinalOnlyLast(s.sent + [s.buffer[0]])
  {
    NextIsGenuine(s);
    SentMissesNothing(s);
    FinalSnoc(s.sent, s.buffer[0]);
  }

  lemma ReactionKeeps(s: Sub)
    requires SubOk(s) && s.phase == Waiting && !s.lagged && s.buffer != []
    ensures var t := Reacted(s, Got(s.buffer[0]));
      Exact(t) && FinalOnlyLast(t.sent) && StillOpen(t) && EndsRightly(t) && NothingMissed(t.(buffer := s.buffer[1..]))
  {
    var e := s.buffer[0];
    if e.id != s.id || e.seqNo <= s.cursor {
      IgnoredKeeps(s);
    } else if e.seqNo == s.cursor + 1 {
      SentKeeps(s);
    }
  }

  lemma GotKeeps(s: Sub)
    requires SubOk(s) && s.phase == Waiting && !s.lagged && s.buffer != []
    ensures SubOk(Reacted(s, Got(s.buffer[0])).(buffer := s.buffer[1..]))
  {
    GenuineTail(s);
    ReactionKeeps(s);
  }

  /** A row that gained one event and stays in the state it ended in. */
  ghost predicate Appended(id: Id, before: Row, after: Row) {
    && after.events == before.events + [Event(id, before.execution.lastSeq + 1, Stamp(after), What(after))]
    && after.execution.lastSeq == before.execution.lastSeq + 1
    && (before.execution.state.IsTerminal() ==> after.execution.state == before.execution.state)
  }

  function Stamp(row: Row): int {
    if row.events == [] then 0 else LastEvent(row).at
  }

  function What(row: Row): Payload {
    if row.events == [] then CaptureTruncated(0) else LastEvent(row).payload
  }

  lemma CommittedKeeps(s: Sub, row: Row)
    requires SubOk(s) && Appended(s.id, s.row, row) && |row.events| < TWO_63
    ensures SubOk(Committed(s, row))
  {
    var t := Committed(s, row);
    assert forall i | 0 <= i < |s.row.events| :: t.row.events[i] == s.row.events[i];
    if s.cursor <= |s.row.events| {
      assert t.row.events[s.after..s.cursor] == s.row.events[s.after..s.cursor];
    } else if s.cursor <= |t.row.events| {
      assert t.row.events[s.after..s.cursor] == [];
    }
  }

  lemma CommitKeeps(s: Sub, step: Step)
    requires SubOk(s) && (step.CommitStart? || step.CommitCapture? || step.CommitEnd?)
    ensures SubOk(Next(s, step))
  {
    var t := Next(s, step);
    if t != s { CommittedKeeps(s, t.row); }
  }

  lemma CommittedIsGenuine(s: Sub, n: nat)
    requires RowSound(s) && 1 <= n <= |s.row.events|
    ensures Genuine(s, [s.row.events[n - 1]])
  {
    assert s.row.events[n - 1].seqNo == n;
  }

  lemma ReceiveKeeps(s: Sub)
    requires SubOk(s)
    ensures SubOk(Next(s, ReceiveNext))
  {
    if s.phase.Waiting? {
      if s.lagged {
        LaggedKeeps(s);
      } else if s.buffer != [] {
        GotKeeps(s);
      }
    }
  }

  lemma PushGenuine(s: Sub, event: Event, t: Sub)
    requires Genuine(s, s.buffer) && Genuine(s, [event])
    requires t.id == s.id && t.row == s.row && t.buffer == Push(s, event).buffer
    ensures Genuine(t, t.buffer)
  {
    var kept := if |s.buffer| >= BROADCAST_CAPACITY then s.buffer[1..] else s.buffer;
    var buffer := kept + [event];
    assert [event][0] == event && buffer[|kept|] == event;
    assert forall i | 0 <= i < |kept| :: buffer[i] == kept[i];
  }

  lemma PushMissesNothing(s: Sub, event: Event, unsent: set<nat>)
    requires NothingMissed(s)
    requires forall n | n in s.unsent && n !in unsent :: 1 <= n <= |s.row.events| && event == s.row.events[n - 1]
    ensures NothingMissed(Push(s, event).(unsent := unsent))
  {
    var t := Push(s, event);
    if !t.lagged {
      assert t.buffer == s.buffer + [event];
      assert forall e | e in s.buffer :: e in t.buffer;
      assert event in t.buffer;
    }
  }

  /** Only the messages on their way differ. */
  lemma SameStanding(s: Sub, t: Sub)
    requires SubOk(s) && Genuine(t, t.buffer) && NothingMissed(t)
    requires t == s.(unsent := t.unsent, abandoned := t.abandoned, buffer := t.buffer, lagged := t.lagged,
                     tampered := t.tampered)
    ensures SubOk(t)
  {
  }

  lemma PushKeeps(s: Sub, event: Event, unsent: set<nat>)
    requires SubOk(s) && Genuine(s, [event])
    requires forall n | n in s.unsent && n !in unsent :: 1 <= n <= |s.row.events| && event == s.row.events[n - 1]
    ensures SubOk(Push(s, event).(unsent := unsent))
  {
    var t := Push(s, event).(unsent := unsent);
    PushGenuine(s, event, t);
    PushMissesNothing(s, event, unsent);
    SameStanding(s, t);
  }

  lemma OneLess(s: Sub, n: nat)
    ensures forall m | m in s.unsent && m !in s.unsent - {n} :: m == n
  {
  }

  lemma NotifiedKeeps(s: Sub, n: nat)
    requires SubOk(s) && n in s.unsent && 1 <= n <= |s.row.events|
    ensures SubOk(Push(s, s.row.events[n - 1]).(unsent := s.unsent - {n}))
  {
    CommittedIsGenuine(s, n);
    OneLess(s, n);
    PushKeeps(s, s.row.events[n - 1], s.unsent - {n});
  }

  lemma NotifyIs(s: Sub, n: nat)
    ensures Next(s, Notify(n)) ==
      if n in s.unsent && 1 <= n <= |s.row.events|
      then Push(s, s.row.events[n - 1]).(unsent := s.unsent - {n}) else s
  {
  }

  lemma NotifyKeeps(s: Sub, n: nat)
    requires SubOk(s)
    ensures SubOk(Next(s, Notify(n)))
  {
    NotifyIs(s, n);
    if n in s.unsent && 1 <= n <= |s.row.events| { NotifiedKeeps(s, n); }
  }

  lemma AbandonKeeps(s: Sub, n: nat)
    requires SubOk(s)
    ensures SubOk(Next(s, Abandon(n)))
  {
  }

  lemma TamperKeeps(s: Sub, buffer: seq<Event>)
    requires SubOk(s)
    ensures SubOk(Next(s, Tamper(buffer)))
  {
  }

  lemma OpenKeeps(s: Sub)
    requires SubOk(s)
    ensures SubOk(Next(s, Step.Open))
  {
  }

  lemma SenderGoneKeeps(s: Sub)
    requires SubOk(s)
    ensures SubOk(Next(s, SenderGone))
  {
  }

  lemma FailKeeps(s: Sub, ending: Ending)
    requires SubOk(s)
    ensures SubOk(Next(s, Fail(ending)))
  {
  }

  lemma StepKeeps(s: Sub, step: Step)
    requires SubOk(s)
    ensures SubOk(Next(s, step))
  {
    match step
    case CommitStart(_, _, _) => CommitKeeps(s, step);
    case CommitCapture(_) => CommitKeeps(s, step);
    case CommitEnd(_, _, _) => CommitKeeps(s, step);
    case Notify(n) => NotifyKeeps(s, n);
    case Abandon(n) => AbandonKeeps(s, n);
    case Foreign(event) => if event.id != s.id { PushKeeps(s, event, s.unsent); }
    case Tamper(buffer) => TamperKeeps(s, buffer);
    case Open => OpenKeeps(s);
    case ReplayPage => if s.phase.Replaying? { ReplayedKeeps(s); }
    case ReceiveNext => ReceiveKeeps(s);
    case SenderGone => SenderGoneKeeps(s);
    case Fail(ending) => FailKeeps(s, ending);
  }

  lemma StepStays(s: Sub, step: Step)
    ensures Next(s, step).after == s.after && Next(s, step).id == s.id
  {
    if step.ReplayPage? {
      ReplayStays(s);
    } else if step.ReceiveNext? {
    } else {
    }
  }

  lemma ReplayStays(s: Sub)
    ensures Replayed(s).after == s.after && Replayed(s).id == s.id
  {
  }

  ghost function Run(s: Sub, steps: seq<Step>): Sub {
    if steps == [] then s else Next(Run(s, steps[..|steps| - 1]), steps[|steps| - 1])
  }

  /** A connection that has just obtained its receiver: nothing read, nothing received, everything
      that was committed earlier either notified already or still to be. */
  ghost predicate Connected(s: Sub) {
    && RowSound(s) && s.phase == Opening && s.buffer == [] && !s.lagged && !s.closing
    && s.cursor == s.after && s.sent == []
  }

  lemma {:induction false} RunKeeps(s: Sub, steps: seq<Step>)
    requires SubOk(s)
    ensures SubOk(Run(s, steps)) && Run(s, steps).after == s.after && Run(s, steps).id == s.id
    decreases |steps|
  {
    if steps != [] {
      RunKeeps(s, steps[..|steps| - 1]);
      StepKeeps(Run(s, steps[..|steps| - 1]), steps[|steps| - 1]);
      StepStays(Run(s, steps[..|steps| - 1]), steps[|steps| - 1]);
    }
  }

  function Segment(log: seq<Event>, from: nat, count: nat): seq<Event> {
    if from + count <= |log| then log[from..from + count] else []
  }

  lemma ConnectedIsOk(s: Sub)
    requires Connected(s)
    ensures SubOk(s)
  {
    assert s.sent == if s.cursor <= |s.row.events| then s.row.events[s.after..s.cursor] else [];
  }

  // ---------------------------------------------------------------------------------------------
  // Main results
  // ---------------------------------------------------------------------------------------------

  /** Whatever is committed meanwhile and whatever happens to the broadcast messages, a subscription
      sends a contiguous segment of the log from the requested cursor on, and unless it is cut off
      it ends only with the final event or once the execution is terminal and all was sent. */
  lemma SubscriptionIsExact(start: Sub, steps: seq<Step>)
    requires Connected(start)
    ensures var s := Run(start, steps);
      && (forall i | 0 <= i < |s.sent| :: s.sent[i].seqNo == start.after + 1 + i)
      && (s.sent == [] || s.sent == Segment(s.row.events, start.after, |s.sent|))
      && FinalOnlyLast(s.sent)
      && EndsRightly(s)
  {
    ConnectedIsOk(start);
    RunKeeps(start, steps);
    SentIsNumbered(Run(start, steps));
  }

  /** The client's contiguity check never fails on what a subscription sends. */
  method Follow(client: ExecutionSubscription, ghost start: Sub, ghost steps: seq<Step>, sent: seq<Event>)
    returns (received: seq<Event>, ok: bool)
    requires Connected(start) && client.nextSeq == start.after && sent == Run(start, steps).sent
    modifies client
    ensures ok && received == sent
    ensures client.nextSeq == start.after + |sent|
  {
    SubscriptionIsExact(start, steps);
    received, ok := client.Drain(sent);
  }

  lemma SentIsNumbered(s: Sub)
    requires SubOk(s)
    ensures forall i | 0 <= i < |s.sent| :: s.sent[i].seqNo == s.after + 1 + i
    ensures s.sent == [] || s.sent == Segment(s.row.events, s.after, |s.sent|)
  {
    forall i | 0 <= i < |s.sent|
      ensures s.sent[i].seqNo == s.after + 1 + i
    {
      assert s.sent[i] == s.row.events[s.after + i];
    }
  }

  /** No wake-up is lost: once no notification is outstanding and the receiver is drained, all that a
      waiting subscription has not sent are events whose committer failed before announcing them; it
      has sent everything exactly if there are none of those beyond its cursor. */
  lemma NoLostWakeup(start: Sub, steps: seq<Step>)
    requires Connected(start)
    requires var s := Run(start, steps);
      s.phase == Waiting && !s.tampered && !s.lagged && s.buffer == [] && s.unsent == {}
    ensures var s := Run(start, steps);
      && (forall n | s.cursor < n <= |s.row.events| :: n in s.abandoned)
      && (s.cursor == |s.row.events| <==> forall n | n in s.abandoned :: !(s.cursor < n <= |s.row.events|))
  {
    ConnectedIsOk(start);
    RunKeeps(start, steps);
    var s := Run(start, steps);
    forall n | s.cursor < n <= |s.row.events|
      ensures n in s.abandoned
    {
      assert s.row.events[n - 1] !in s.buffer;
    }
    if s.cursor < |s.row.events| {
      assert |s.row.events| in s.abandoned;
    }
  }

  lemma RunSnoc(s: Sub, steps: seq<Step>, step: Step)
    ensures Run(s, steps + [step]) == Next(Run(s, steps), step)
  {
    assert (steps + [step])[..|steps|] == steps;
  }

  /** Such an event: a subscription waits although an execution has started, because the start was
      committed and not announced. Nothing that has happened will wake it; the announcement of a later
      event would, by the gap it leaves. */
  lemma WakeupIsLost() returns (start: Sub, steps: seq<Step>)
    ensures Connected(start)
    ensures var s := Run(start, steps);
      && s.phase == Waiting && !s.tampered && !s.lagged && s.buffer == [] && s.unsent == {}
      && s.cursor == 0 && |s.row.events| == 1 && s.abandoned == {1}
  {
    var row := FreshRow("w", None, "cli", 0);
    start := Sub("x", 0, row, {}, {}, [], false, false, Opening, false, 0, [], 0);
    var reading, waiting := start.(phase := Replaying), start.(phase := Waiting);
    var committed := Committed(waiting, Begun("x", row, 1, 1, 0));
    var abandoned := committed.(unsent := {}, abandoned := {1});
    EmptyReplay(reading);
    OneIsAbandoned(waiting, committed, abandoned);
    steps := FourSteps(start, Open, reading, ReplayPage, waiting, CommitStart(1, 1, 0), committed, Abandon(1),
                       abandoned);
  }

  lemma OneIsAbandoned(waiting: Sub, committed: Sub, abandoned: Sub)
    requires waiting.row.events == [] && waiting.unsent == {} && waiting.abandoned == {}
    requires committed == Committed(waiting, committed.row) && abandoned == committed.(unsent := {}, abandoned := {1})
    ensures Next(committed, Abandon(1)) == abandoned
  {
    assert committed.unsent == {1} && {1} - {1} == {} && {} + {1} == {1};
  }

  lemma FourSteps(s: Sub, a: Step, t: Sub, b: Step, u: Sub, c: Step, v: Sub, d: Step, w: Sub) returns (steps: seq<Step>)
    requires Next(s, a) == t && Next(t, b) == u && Next(u, c) == v && Next(v, d) == w
    ensures Run(s, steps) == w
  {
    RunSnoc(s, [], a);
    RunSnoc(s, [] + [a], b);
    RunSnoc(s, [] + [a] + [b], c);
    RunSnoc(s, [] + [a] + [b] + [c], d);
    steps := [] + [a] + [b] + [c] + [d];
  }

  lemma EmptyReplay(s: Sub)
    requires s.row.events == [] && !s.row.execution.state.IsTerminal() && s.row.execution.lastSeq == 0
    requires s.cursor == 0 && s.sent == [] && !s.closing
    ensures Replayed(s) == s.(phase := Waiting)
  {
  }

  /** Reconnecting with the number of the last event received continues where the first connection
      was cut off: together they deliver one contiguous segment. */
  lemma ReconnectIsExact(first: Sub, received: nat, second: Sub)
    requires SubOk(first) && SubOk(second) && first.row.events <= second.row.events
    requires received <= |first.sent| && second.after == first.after + received
    requires first.cursor <= |first.row.events| && second.cursor <= |second.row.events|
    ensures first.sent[..received] + second.sent == second.row.events[first.after..second.cursor]
  {
    var log := second.row.events;
    assert first.sent[..received] == log[first.after..second.after];
    JoinSlices(log, first.after, second.after, second.cursor);
  }
}
