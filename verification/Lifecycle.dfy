/** How executions are accepted, run, cancelled and drained (src/executor.rs): one task per execution,
    any number of cancel requests and one drain, interleaved step by step.

    Between two steps a participant holds at most a lock; every store command is one step. A step
    that is not enabled changes nothing. */
module Lifecycle {
  import opened Model
  import opened Supervisor

  datatype Service = Accepting | Draining | Stopped

  /** Where the task of one execution stands. */
  datatype Pc =
    | Starting                       // until execute lets it go
    | Queueing                       // waits for a slot
    | Admitted                       // has a slot
    | Checked                        // read its row as not terminal
    | SpawnFailed                    // no supervisor; about to record that
    | Spawned                        // its supervisor is up and was sent the command
    | Registering                    // has the transition lock
    | Looked(terminal: bool)         // has the transition lock and read its row
    | Reading                        // in the loop over the supervisor's frames
    | Beginning                      // read the started frame and has the transition lock
    | Seen(terminal: bool)           // and read its row
    | Final(outcome: Outcome)        // read the final frame and flushed
    | Deciding(outcome: Outcome)     // and read its row as not terminal
    | Closing(finished: bool)        // left the loop
    | Reaping(finished: bool)        // gave up its handle
    | Unfinished                     // there was no final frame and its row is not terminal
    | Failing                        // run_execution returned an error
    | FailingSeen                    // and its row is not terminal
    | Leaving                        // run_execution is done
    | Removed                        // gave up its handle, if it still had one
    | Uncounted                      // no longer counted as active, nobody told yet
    | Gone

  datatype Task = Task(pc: Pc, commands: seq<Control>, writerAlive: bool)

  datatype CancelStage =
    | Entered
    | SawState(state: ExecutionState)
    | SawHandle(state: ExecutionState, handle: bool)
    | EndedQueued(handle: bool)

  /** Who holds the transition lock. */
  datatype Holder = Free | ByTask(id: Id) | ByCancel(id: Id, stage: CancelStage) | ByDrain

  datatype Drain =
    | NotDraining
    | Announced        // no execution is accepted any more
    | Closed           // no slot is given out any more
    | Inside           // has the transition lock
    | QueuedCancelled
    | Sending          // works through the handles
    | Drained          // left the critical section; waits for the tasks
    | Aborting         // waited too long: forgets the handles and aborts the tasks
    | Returned
    | DrainFailed      // the store refused to cancel a queued row

  /** The drain's wait for idleness; `seen` counts the notifications before it subscribed. */
  datatype Idle = NotWaiting | Subscribed(seen: nat) | Parked(seen: nat)

  datatype System = System(
    service: Service,
    accepting: bool,               // an execute holds the service lock, past its check
    rows: map<Id, ExecutionState>,
    tasks: map<Id, Task>,
    processes: set<Id>,            // the registered handles
    lock: Holder,
    slots: nat,                    // max_concurrent_executions
    available: nat,                // the semaphore's permits
    closed: bool,
    active: nat,
    notifications: nat,
    idle: Idle,
    drain: Drain,
    targets: seq<Id>,              // handles the drain still has to send to
    cancelled: set<Id>,            // rows ended by a cancel request while queued
    abandoned: set<Id>,            // rows ended by a drain that then failed
    refused: set<Id>)              // cancel requests that found a running row without a handle

  datatype Frame = StartedFrame | OutputFrame | FinalFrame(outcome: Outcome)

  datatype TaskStep =
    | Advance                      // the task's own next step
    | SpawnFails
    | Read(frame: Frame)
    | StreamEnds
    | Fail                         // any error inside run_execution, or of the store right after it
    | WriterDies
    | Abort

  datatype Step =
    | BeginExecute
    | Create(id: Id)
    | EndExecute
    | TaskDoes(id: Id, what: TaskStep)
    | CancelLock(id: Id)
    | CancelNext(failing: bool)
    | DrainNext
    | DrainQueued(failing: bool, ended: set<Id>)
    | DrainSnapshot(order: seq<Id>)
    | DrainTimeout
    | IdleNext
    | Prune(id: Id)

  // ---------------------------------------------------------------------------------------------
  // Classes of task positions
  // ---------------------------------------------------------------------------------------------

  /** Before the handle is registered. */
  predicate Early(pc: Pc) {
    pc.Starting? || pc.Queueing? || pc.Admitted? || pc.Checked? || pc.SpawnFailed?
    || pc.Spawned? || pc.Registering? || pc.Looked?
  }

  predicate Unspawned(pc: Pc) {
    pc.Starting? || pc.Queueing? || pc.Admitted? || pc.Checked? || pc.SpawnFailed?
  }

  /** Registration is over and the supervisor's event stream is still being read. */
  predicate Supervised(pc: Pc) {
    pc.Reading? || pc.Beginning? || pc.Seen? || pc.Final? || pc.Deciding?
  }

  predicate Concluding(pc: Pc) {
    pc.Closing? || pc.Reaping? || pc.Unfinished?
  }

  predicate NeedsLock(pc: Pc) {
    pc.Registering? || pc.Looked? || pc.Beginning? || pc.Seen?
  }

  /** run_execution holds its permit until it returns. */
  predicate HoldsPermit(pc: Pc) {
    pc.Admitted? || pc.Checked? || pc.SpawnFailed? || pc.Spawned? || pc.Registering? || pc.Looked?
    || Supervised(pc) || Concluding(pc)
  }

  predicate IsCounted(pc: Pc) {
    !pc.Uncounted? && !pc.Gone?
  }

  // ---------------------------------------------------------------------------------------------
  // What a task does
  // ---------------------------------------------------------------------------------------------

  datatype Lock = Unheld | Mine | Theirs

  /** What a task can see and change. */
  datatype Local = Local(
    task: Task,
    row: Option<ExecutionState>,
    handle: bool,
    lock: Lock,
    available: nat,
    active: nat,
    notifications: nat)

  predicate IsLive(row: Option<ExecutionState>) {
    row.Some? && !row.value.IsTerminal()
  }

  function At(l: Local, pc: Pc): Local {
    l.(task := l.task.(pc := pc))
  }

  /** run_execution returns: the permit and the lock are dropped with its scope. */
  function Return(l: Local, pc: Pc): Local {
    At(l, pc).(
      available := if HoldsPermit(l.task.pc) then l.available + 1 else l.available,
      lock := if l.lock.Mine? then Unheld else l.lock)
  }

  /** A send to a control queue is lost when the queue's writer is gone. */
  function Sent(task: Task): Task {
    if task.writerAlive then task.(commands := task.commands + [CancelCommand]) else task
  }

  function Locking(l: Local, pc: Pc): Local {
    if l.lock.Unheld? then At(l, pc).(lock := Mine) else l
  }

  /** From the go-ahead to the running supervisor. */
  function Launch(l: Local, closed: bool): Local
    requires Unspawned(l.task.pc)
  {
    match l.task.pc
    case Starting => At(l, Queueing)
    case Queueing =>
      if closed then At(l, Leaving)
      else if l.available > 0 then At(l, Admitted).(available := l.available - 1)
      else l
    case Admitted =>
      if l.row.None? then Return(l, Failing)
      else if l.row.value.IsTerminal() then Return(l, Leaving)
      else At(l, Checked)
    case Checked => l.(task := l.task.(pc := Spawned, commands := [SpawnCommand]))
    case SpawnFailed =>
      if IsLive(l.row) then Return(l, Leaving).(row := Some(Finished)) else Return(l, Failing)
  }

  /** Entering the handle, or finding that the execution is over already. */
  function Register(l: Local): Local
    requires l.task.pc.Spawned? || l.task.pc.Registering? || l.task.pc.Looked?
  {
    match l.task.pc
    case Spawned => Locking(l, Registering)
    case Registering => if l.row.None? then Return(l, Failing) else At(l, Looked(l.row.value.IsTerminal()))
    case Looked(terminal) =>
      if terminal then l.(task := Sent(l.task).(pc := Reading), lock := Unheld)
      else At(l, Reading).(handle := true, lock := Unheld)
  }

  /** Inside the loop over the supervisor's frames. */
  function Attend(l: Local): Local
    requires Supervised(l.task.pc)
  {
    match l.task.pc
    case Reading => l
    case Beginning => if l.row.None? then Return(l, Failing) else At(l, Seen(l.row.value.IsTerminal()))
    case Seen(terminal) =>
      if terminal then l.(task := Sent(l.task).(pc := Reading), lock := Unheld)
      else if l.row == Some(Queued) then At(l, Reading).(row := Some(Running), lock := Unheld)
      else Return(l, Failing)
    case Final(outcome) =>
      if l.row.None? then Return(l, Failing)
      else if l.row.value.IsTerminal() then At(l, Closing(true))
      else At(l, Deciding(outcome))
    case Deciding(outcome) =>
      if IsLive(l.row) then At(l, Closing(true)).(row := Some(StateFor(outcome))) else Return(l, Failing)
  }

  /** After the loop. */
  function Conclude(l: Local): Local
    requires Concluding(l.task.pc)
  {
    match l.task.pc
    case Closing(finished) => At(l, Reaping(finished)).(handle := false)
    case Reaping(finished) =>
      if finished then Return(l, Leaving)
      else if l.row.None? then Return(l, Failing)
      else if l.row.value.IsTerminal() then Return(l, Leaving)
      else At(l, Unfinished)
    case Unfinished =>
      if IsLive(l.row) then Return(l, Leaving).(row := Some(Interrupted)) else Return(l, Failing)
  }

  /** After run_execution. */
  function CleanUp(l: Local): Local
    requires !HoldsPermit(l.task.pc) && !l.task.pc.Starting? && !l.task.pc.Queueing?
  {
    match l.task.pc
    case Failing => if IsLive(l.row) then At(l, FailingSeen) else At(l, Leaving)
    case FailingSeen => if IsLive(l.row) then At(l, Leaving).(row := Some(Interrupted)) else At(l, Leaving)
    case Leaving => At(l, Removed).(handle := false)
    case Removed => At(l, Uncounted).(active := if l.active > 0 then l.active - 1 else 0)
    case Uncounted => At(l, Gone).(notifications := l.notifications + 1)
    case Gone => l
  }

  function Reads(l: Local, frame: Frame): Local
    requires l.task.pc.Reading?
  {
    match frame
    case StartedFrame => Locking(l, Beginning)
    case OutputFrame => l
    case FinalFrame(outcome) => At(l, Final(outcome))
  }

  /** An abort takes effect where the task next waits, possibly after the drain has returned. */
  predicate Aborts(drain: Drain) {
    drain.Aborting? || drain.Returned?
  }

  /** An aborted task drops its guards where it stands. */
  function Aborted(l: Local): Local {
    if IsCounted(l.task.pc)
    then Return(l, Uncounted).(active := if l.active > 0 then l.active - 1 else 0) else l
  }

  function Advanced(l: Local, closed: bool): Local {
    if Unspawned(l.task.pc) then Launch(l, closed)
    else if Early(l.task.pc) then Register(l)
    else if Supervised(l.task.pc) then Attend(l)
    else if Concluding(l.task.pc) then Conclude(l)
    else CleanUp(l)
  }

  function TaskNext(l: Local, what: TaskStep, closed: bool, aborting: bool): Local {
    match what
    case Advance => Advanced(l, closed)
    case SpawnFails => if l.task.pc.Checked? then At(l, SpawnFailed) else l
    case Read(frame) => if l.task.pc.Reading? then Reads(l, frame) else l
    case StreamEnds => if l.task.pc.Reading? then At(l, Closing(false)) else l
    case Fail =>
      if HoldsPermit(l.task.pc) then Return(l, Failing)
      else if l.task.pc.Failing? || l.task.pc.FailingSeen? then At(l, Leaving)
      else l
    case WriterDies => l.(task := l.task.(writerAlive := false))
    case Abort => if aborting then Aborted(l) else l
  }

  function RowOf(rows: map<Id, ExecutionState>, id: Id): Option<ExecutionState> {
    if id in rows then Some(rows[id]) else None
  }

  function LocalOf(s: System, id: Id): Local
    requires id in s.tasks
  {
    Local(s.tasks[id], RowOf(s.rows, id), id in s.processes,
          if s.lock.Free? then Unheld else if s.lock.ByTask? && s.lock.id == id then Mine else Theirs,
          s.available, s.active, s.notifications)
  }

  function Install(s: System, id: Id, l: Local): System {
    s.(tasks := s.tasks[id := l.task],
       rows := if l.row.Some? then s.rows[id := l.row.value] else s.rows - {id},
       processes := if l.handle then s.processes + {id} else s.processes - {id},
       lock := if l.lock.Unheld? then Free else if l.lock.Mine? then ByTask(id) else s.lock,
       available := l.available, active := l.active, notifications := l.notifications)
  }

  // ---------------------------------------------------------------------------------------------
  // What cancel requests and the drain do
  // ---------------------------------------------------------------------------------------------

  function Send(s: System, id: Id): System {
    if id in s.tasks then s.(tasks := s.tasks[id := Sent(s.tasks[id])]) else s
  }

  /** What a cancel request does next inside its critical section. */
  datatype CancelMove =
    | GoOn(stage: CancelStage)
    | EndIt(handle: bool)     // ends the queued row
    | Tell                    // sends to the handle it found and leaves
    | Refuse                  // leaves with an error: running, but no handle
    | GiveUp                  // leaves

  function CancelDecides(stage: CancelStage, row: Option<ExecutionState>, handle: bool, failing: bool): CancelMove {
    match stage
    case Entered => if failing || row.None? then GiveUp else GoOn(SawState(row.value))
    case SawState(state) => GoOn(SawHandle(state, handle))
    case SawHandle(state, known) =>
      if state == Queued then (if failing || !IsLive(row) then GiveUp else EndIt(known))
      else if state == Running then (if known then Tell else Refuse)
      else GiveUp
    case EndedQueued(known) => if known then Tell else GiveUp
  }

  function CancelMoves(s: System, id: Id, move: CancelMove): System {
    match move
    case GoOn(stage) => s.(lock := ByCancel(id, stage))
    case EndIt(handle) =>
      s.(rows := s.rows[id := Cancelled], lock := ByCancel(id, EndedQueued(handle)), cancelled := s.cancelled + {id})
    case Tell => Send(s, id).(lock := Free)
    case Refuse => s.(lock := Free, refused := s.refused + {id})
    case GiveUp => s.(lock := Free)
  }

  function CancelStep(s: System, failing: bool): System
    requires s.lock.ByCancel?
  {
    var id := s.lock.id;
    CancelMoves(s, id, CancelDecides(s.lock.stage, RowOf(s.rows, id), id in s.processes, failing))
  }

  function DrainStep(s: System): System {
    match s.drain
    case NotDraining => if s.accepting then s else s.(service := Draining, drain := Announced)
    case Announced => s.(closed := true, drain := Closed)
    case Closed => if s.lock.Free? then s.(lock := ByDrain, drain := Inside) else s
    case Sending =>
      if s.targets == [] then s.(lock := Free, drain := Drained)
      else Send(s, s.targets[0]).(targets := s.targets[1..])
    case Aborting => s.(service := Stopped, drain := Returned, idle := NotWaiting)
    case _ => s
  }

  function QueuedIds(rows: map<Id, ExecutionState>): set<Id> {
    set id | id in rows && rows[id] == Queued
  }

  function EndRows(rows: map<Id, ExecutionState>, ended: set<Id>): map<Id, ExecutionState> {
    map id | id in rows :: if id in ended then Cancelled else rows[id]
  }

  /** Cancelling the queued rows one by one; on a failure some of them are ended already. */
  function DrainRows(s: System, failing: bool, ended: set<Id>): System {
    if failing then
      s.(rows := EndRows(s.rows, ended * QueuedIds(s.rows)), lock := Free, drain := DrainFailed,
         abandoned := s.abandoned + ended * QueuedIds(s.rows))
    else s.(rows := EndRows(s.rows, QueuedIds(s.rows)), drain := QueuedCancelled)
  }

  function IdleStep(s: System): System {
    match s.idle
    case NotWaiting => s.(idle := Subscribed(s.notifications))
    case Subscribed(seen) =>
      if s.active == 0 then s.(idle := NotWaiting, service := Stopped, drain := Returned)
      else s.(idle := Parked(seen))
    case Parked(seen) => if s.notifications > seen then s.(idle := NotWaiting) else s
  }

  function Next(s: System, step: Step): System {
    match step
    case BeginExecute => if !s.accepting && s.service == Accepting then s.(accepting := true) else s
    case Create(id) =>
      if s.accepting && id !in s.rows && id !in s.tasks then
        s.(tasks := s.tasks[id := Task(Starting, [], true)], rows := s.rows[id := Queued], active := s.active + 1)
      else s
    case EndExecute => s.(accepting := false)
    case TaskDoes(id, what) =>
      if id in s.tasks then Install(s, id, TaskNext(LocalOf(s, id), what, s.closed, Aborts(s.drain))) else s
    case CancelLock(id) => if s.lock.Free? then s.(lock := ByCancel(id, Entered)) else s
    case CancelNext(failing) => if s.lock.ByCancel? then CancelStep(s, failing) else s
    case DrainNext => DrainStep(s)
    case DrainQueued(failing, ended) => if s.drain.Inside? then DrainRows(s, failing, ended) else s
    case DrainSnapshot(order) =>
      if s.drain.QueuedCancelled? && (set id | id in order) == s.processes
      then s.(drain := Sending, targets := order) else s
    case DrainTimeout => if s.drain.Drained? then s.(processes := {}, drain := Aborting) else s
    case IdleNext => if s.drain.Drained? then IdleStep(s) else s
    case Prune(id) => if id in s.rows && s.rows[id].IsTerminal() then s.(rows := s.rows - {id}) else s
  }

  function Run(s: System, steps: seq<Step>): System {
    if steps == [] then s else Next(Run(s, steps[..|steps| - 1]), steps[|steps| - 1])
  }
}
