/** The records that the daemon, its store and its clients exchange (src/model.rs, src/error.rs).
    Clock readings are ordinary parameters called `now`; ids are only ever compared for equality. */
module Model {

  datatype Option<+T> = None | Some(value: T)

  datatype Result<+T> = Ok(value: T) | Err(error: Error)

  datatype Error =
    | ExecutionNotFound(id: Id)
    | AlreadyTerminal(id: Id)
    | AgentSessionNotFound(sessionId: Id)
    | InvalidRequest
    | Protocol
    | StorageUnavailable
    | Config

  type Id = string

  newtype Byte = x: int | 0 <= x < 256

  const TWO_63: nat := 0x8000_0000_0000_0000
  const TWO_64: nat := 0x1_0000_0000_0000_0000

  function Min(a: nat, b: nat): nat {
    if a < b then a else b
  }

  /** What a limit still lets through when so much was taken already. */
  function Room(limit: nat, taken: nat): nat {
    if taken < limit then limit - taken else 0
  }

  datatype OutputStream = Stdout | Stderr

  datatype ExecutionState = Queued | Running | Finished | Cancelled | Interrupted {
    predicate IsTerminal() {
      Finished? || Cancelled? || Interrupted?
    }
  }

  datatype Outcome =
    | Exited(code: int)
    | Signaled(signal: int)
    | SpawnError(message: string)
    | CancelledBy(killedBy: Option<int>)
    | InterruptedBy(reason: string)

  /** The state an execution ends in when its supervisor reports this outcome. */
  function StateFor(outcome: Outcome): (state: ExecutionState)
    ensures state.IsTerminal()
  {
    match outcome
    case CancelledBy(_) => Cancelled
    case InterruptedBy(_) => Interrupted
    case _ => Finished
  }

  datatype Payload =
    | Started(pid: int, pgid: int)
    | Output(stream: OutputStream, data: seq<Byte>)
    | CaptureTruncated(limit: nat)
    | FinishedWith(outcome: Outcome)

  datatype Event = Event(id: Id, seqNo: nat, at: int, payload: Payload) {
    /** The number of bytes in the event's data column. */
    function Size(): nat {
      if payload.Output? then |payload.data| else 0
    }
  }

  datatype Execution = Execution(
    workspace: Id,
    session: Option<Id>,
    initiatorKind: string,
    state: ExecutionState,
    outcome: Option<Outcome>,
    createdAt: int,
    startedAt: Option<int>,
    endedAt: Option<int>,
    capturedBytes: nat,
    outputTruncated: bool,
    lastSeq: nat)

  /** The output bytes of a list of events, in order. */
  function OutputBytes(events: seq<Event>): seq<Byte> {
    if events == [] then []
    else OutputBytes(events[..|events| - 1]) + Data(events[|events| - 1])
  }

  function Data(event: Event): seq<Byte> {
    if event.payload.Output? then event.payload.data else []
  }

  lemma {:induction false} OutputBytesConcat(a: seq<Event>, b: seq<Event>)
    ensures OutputBytes(a + b) == OutputBytes(a) + OutputBytes(b)
    decreases |b|
  {
    if b == [] {
      assert a + b == a;
    } else {
      assert (a + b)[..|a + b| - 1] == a + b[..|b| - 1];
      OutputBytesConcat(a, b[..|b| - 1]);
    }
  }

  // ---------------------------------------------------------------------------------------------
  // Sequences
  // ---------------------------------------------------------------------------------------------

  lemma Associative<T>(a: seq<T>, b: seq<T>, c: seq<T>)
    ensures a + (b + c) == (a + b) + c
  {
  }

  lemma JoinSlices<T>(s: seq<T>, a: nat, b: nat, c: nat)
    requires a <= b <= c <= |s|
    ensures s[a..b] + s[b..c] == s[a..c]
  {
  }
}
