/** What every reachable state of the lifecycle machine satisfies, and what follows from it for
    cancellation, draining, slots and the wait for idleness. */
module LifecycleSafety {
  import opened Model
  import opened Supervisor
  import opened Lifecycle

  // ---------------------------------------------------------------------------------------------
  // The invariant, one execution at a time
  // ---------------------------------------------------------------------------------------------

  /** All that matters about one execution. */
  datatype View = View(
    task: Option<Task>,
    row: Option<ExecutionState>,
    handle: bool,
    locked: bool,
    cancel: Option<CancelStage>,
    targeted: bool,
    drain: Drain,
    cancelled: bool,
    abandoned: bool,
    refused: bool)

  function ViewOf(s: System, id: Id): View {
    View(if id in s.tasks then Some(s.tasks[id]) else None,
         RowOf(s.rows, id),
         id in s.processes,
         s.lock.ByTask? && s.lock.id == id,
         if s.lock.ByCancel? && s.lock.id == id then Some(s.lock.stage) else None,
         s.drain.Sending? && id in s.targets,
         s.drain,
         id in s.cancelled, id in s.abandoned, id in s.refused)
  }

  predicate Over(row: Option<ExecutionState>) {
    row.None? || row.value.IsTerminal()
  }

  /** Every row that was queued has been cancelled. */
  predicate PastQueued(drain: Drain) {
    drain.QueuedCancelled? || PastSnapshot(drain)
  }

  predicate PastSnapshot(drain: Drain) {
    drain.Sending? || IsDrained(drain)
  }

  /** The drain has left its critical section. */
  predicate IsDrained(drain: Drain) {
    drain.Drained? || drain.Aborting? || drain.Returned?
  }

  predicate MayBeCleared(drain: Drain) {
    drain.Aborting? || drain.Returned?
  }

  /** The supervisor was sent a cancel command, unless its control pipe broke before. */
  ghost predicate Told(task: Task) {
    !task.writerAlive || CancelCommand in task.commands
  }

  /** The holder of the lock will still send one. */
  predicate Pending(v: View) {
    v.cancel == Some(EndedQueued(true)) || (v.drain.QueuedCancelled? && v.handle) || v.targeted
  }

  /** The first command starts the supervisor's child; all others cancel it. */
  ghost predicate CommandsOk(task: Task) {
    && (Unspawned(task.pc) ==> task.commands == [])
    && (Supervised(task.pc) || task.pc.Spawned? || task.pc.Registering? || task.pc.Looked? ==> task.commands != [])
    && (task.commands != [] ==> task.commands[0] == SpawnCommand)
    && forall i | 1 <= i < |task.commands| :: task.commands[i] == CancelCommand
  }

  /** What was read under the lock still holds, and a row starts running only once registered. */
  predicate RowMatches(pc: Pc, row: Option<ExecutionState>) {
    && (Early(pc) ==> row != Some(Running))
    && (pc == Looked(false) ==> row == Some(Queued))
    && (pc == Looked(true) || pc == Seen(true) ==> Over(row))
    && (pc == Seen(false) ==> !Over(row))
  }

  ghost predicate SupervisedOk(v: View, task: Task) {
    && (v.handle || Told(task))
    && (Over(v.row) ==> Told(task) || Pending(v) || v.abandoned)
    && (v.cancelled ==> Told(task) || v.cancel == Some(EndedQueued(true)))
    && (!v.handle && !MayBeCleared(v.drain) ==> Over(v.row))
    && (PastSnapshot(v.drain) ==> Told(task) || v.targeted)
  }

  ghost predicate TaskOk(v: View, task: Task) {
    && v.locked == NeedsLock(task.pc)
    && CommandsOk(task)
    && RowMatches(task.pc, v.row)
    && (v.handle || v.targeted ==> task.commands != [])
    && (Supervised(task.pc) ==> SupervisedOk(v, task))
    && (v.refused ==> (!Early(task.pc) && !Supervised(task.pc)) || MayBeCleared(v.drain))
  }

  ghost predicate CancelOk(v: View) {
    && (v.cancel.Some? && v.cancel.value.SawHandle? && !v.cancel.value.handle ==> !v.handle)
    && (v.cancel == Some(EndedQueued(false)) ==> !v.handle)
    && (v.cancel.Some? && v.cancel.value.SawHandle? && v.cancel.value.handle ==>
          v.task.Some? && v.task.value.commands != [])
    && (v.cancel == Some(EndedQueued(true)) ==> v.task.Some? && v.task.value.commands != [])
    && (v.cancel.Some? && (v.cancel.value.SawState? || v.cancel.value.SawHandle?) && v.cancel.value.state == Running ==>
          v.task.Some? && !Early(v.task.value.pc) && (v.row == Some(Running) || !Supervised(v.task.value.pc)))
  }

  ghost predicate ViewOk(v: View) {
    && (v.task.None? ==> Over(v.row) && !v.handle && !v.locked && !v.targeted && !v.refused)
    && (v.task.Some? ==> TaskOk(v, v.task.value))
    && CancelOk(v)
    && (PastQueued(v.drain) ==> v.row != Some(Queued))
    && (v.cancelled || v.abandoned ==> Over(v.row) && v.task.Some?)
    && !(v.cancelled && v.abandoned)
  }

  ghost predicate ViewsOk(s: System) {
    forall id {:trigger ViewOk(ViewOf(s, id))} :: ViewOk(ViewOf(s, id))
  }

  // ---------------------------------------------------------------------------------------------
  // The rest of the invariant
  // ---------------------------------------------------------------------------------------------

  function Holders(tasks: map<Id, Task>): set<Id> {
    set id | id in tasks && HoldsPermit(tasks[id].pc)
  }

  function Counted(tasks: map<Id, Task>): set<Id> {
    set id | id in tasks && IsCounted(tasks[id].pc)
  }

  predicate InCriticalSection(drain: Drain) {
    drain.Inside? || drain.QueuedCancelled? || drain.Sending?
  }

  ghost predicate PhasesOk(s: System) {
    && (s.accepting ==> s.service == Accepting)
    && (s.service == Accepting <==> s.drain.NotDraining?)
    && (!s.drain.NotDraining? && !s.drain.Announced? ==> s.closed)
    && (s.lock.ByDrain? <==> InCriticalSection(s.drain))
    && (s.abandoned != {} ==> s.drain.DrainFailed?)
  }

  ghost predicate SomeoneWillNotify(s: System) {
    exists id :: id in s.tasks && s.tasks[id].pc.Uncounted?
  }

  ghost predicate IdleOk(s: System) {
    match s.idle
    case NotWaiting => true
    case Subscribed(seen) => seen <= s.notifications
    case Parked(seen) =>
      seen <= s.notifications && (seen == s.notifications ==> s.active > 0 || SomeoneWillNotify(s))
  }

  ghost predicate PermitsOk(s: System) {
    s.available + |Holders(s.tasks)| == s.slots
  }

  ghost predicate ActiveOk(s: System) {
    s.active == |Counted(s.tasks)|
  }

  ghost predicate SystemOk(s: System) {
    ViewsOk(s) && PhasesOk(s) && IdleOk(s) && PermitsOk(s) && ActiveOk(s)
  }

  /** A daemon that has reconciled the executions of its predecessor. */
  ghost predicate Initial(s: System) {
    && s.service == Accepting && !s.accepting && s.tasks == map[] && s.processes == {} && s.lock.Free?
    && (forall id | id in s.rows :: s.rows[id].IsTerminal())
    && s.available == s.slots && !s.closed && s.active == 0 && s.idle == NotWaiting
    && s.drain.NotDraining? && s.targets == [] && s.cancelled == {} && s.abandoned == {} && s.refused == {}
  }

  lemma InitialIsOk(s: System)
    requires Initial(s)
    ensures SystemOk(s)
  {
    assert Holders(s.tasks) == {} && Counted(s.tasks) == {};
  }

  // ---------------------------------------------------------------------------------------------
  // Every step keeps it
  // ---------------------------------------------------------------------------------------------

  /** A task's step as seen by its own execution. */
  function After(v: View, l: Local): View {
    v.(task := Some(l.task), row := l.row, handle := l.handle, locked := l.lock.Mine?)
  }

  ghost predicate Matches(v: View, l: Local) {
    && v == After(v, l)
    && (v.cancel.Some? || InCriticalSection(v.drain) ==> l.lock.Theirs?)
  }

  /** The lock changes hands only between this task and nobody; the counters follow its position. */
  ghost predicate Fair(l: Local, m: Local) {
    && (m.lock.Theirs? <==> l.lock.Theirs?)
    && m.available + One(HoldsPermit(m.task.pc)) == l.available + One(HoldsPermit(l.task.pc))
    && m.active + One(IsCounted(l.task.pc)) == l.active + One(IsCounted(m.task.pc))
    && (m.notifications > l.notifications
        || (&& m.notifications == l.notifications
            && (l.task.pc.Uncounted? ==> m.task.pc.Uncounted?)
            && (m.active == l.active || m.task.pc.Uncounted?)))
  }

  function One(b: bool): int {
    if b then 1 else 0
  }

  /** Out of the loop for good. */
  predicate Past(pc: Pc) {
    !Early(pc) && !Supervised(pc)
  }

  /** Only a live row is ended; a handle is only given up. */
  ghost predicate Retreats(l: Local, m: Local) {
    && Past(m.task.pc) && m.task == l.task.(pc := m.task.pc)
    && (m.handle ==> l.handle)
    && (m.row == l.row || (IsLive(l.row) && m.row.Some? && Over(m.row)))
    && m.lock == (if l.lock.Mine? then Unheld else l.lock)
  }

  lemma RetreatKeeps(v: View, l: Local, m: Local)
    requires ViewOk(v) && Matches(v, l) && Retreats(l, m)
    ensures ViewOk(After(v, m))
  {
    if v.cancel.Some? && v.cancel.value.SawHandle? && v.cancel.value.handle {
      assert v.task == Some(l.task);
    }
  }

  /** What a task knows of the lock and the counters. */
  ghost predicate Aware(l: Local) {
    (l.lock.Mine? <==> NeedsLock(l.task.pc)) && l.active >= One(IsCounted(l.task.pc))
  }

  ghost predicate Sound(l: Local, m: Local) {
    Fair(l, m) && (Past(m.task.pc) ==> Retreats(l, m))
  }

  lemma LaunchIsSound(l: Local, closed: bool)
    requires Aware(l) && Unspawned(l.task.pc)
    ensures Sound(l, Launch(l, closed))
  {
  }

  lemma RegisterIsSound(l: Local)
    requires Aware(l) && (l.task.pc.Spawned? || l.task.pc.Registering? || l.task.pc.Looked?)
    ensures Sound(l, Register(l))
  {
  }

  lemma AttendIsSound(l: Local)
    requires Aware(l) && Supervised(l.task.pc)
    ensures Sound(l, Attend(l))
  {
  }

  lemma ConcludeIsSound(l: Local)
    requires Aware(l) && Concluding(l.task.pc)
    ensures Sound(l, Conclude(l)) && Past(Conclude(l).task.pc)
  {
  }

  lemma CleanUpIsSound(l: Local)
    requires Aware(l) && Past(l.task.pc) && !Concluding(l.task.pc)
    ensures Sound(l, CleanUp(l)) && Past(CleanUp(l).task.pc)
  {
  }

  lemma ReturnIsSound(l: Local)
    requires Aware(l) && HoldsPermit(l.task.pc)
    ensures Fair(l, Return(l, Failing)) && Retreats(l, Return(l, Failing))
  {
  }

  lemma AbortIsSound(l: Local)
    requires Aware(l)
    ensures Fair(l, Aborted(l)) && (Aborted(l) != l ==> Retreats(l, Aborted(l)))
  {
  }

  lemma ReadIsSound(l: Local, frame: Frame)
    requires Aware(l) && l.task.pc.Reading?
    ensures Fair(l, Reads(l, frame)) && !Past(Reads(l, frame).task.pc)
  {
  }

  lemma OtherIsSound(l: Local, what: TaskStep, closed: bool, aborting: bool)
    requires Aware(l) && !what.Advance?
    ensures Fair(l, TaskNext(l, what, closed, aborting))
    ensures var m := TaskNext(l, what, closed, aborting);
      !what.WriterDies? && Past(m.task.pc) && m != l ==> Retreats(l, m)
  {
    if what.Fail? && HoldsPermit(l.task.pc) { ReturnIsSound(l); }
    else if what.Abort? && aborting { AbortIsSound(l); }
    else if what.Read? && l.task.pc.Reading? { ReadIsSound(l, what.frame); }
  }

  /** A task that finds its row ended under the lock tells its supervisor itself. */
  lemma TellKeeps(v: View, l: Local)
    requires ViewOk(v) && Matches(v, l) && (l.task.pc == Looked(true) || l.task.pc == Seen(true))
    ensures ViewOk(After(v, l.(task := Sent(l.task).(pc := Reading), lock := Unheld)))
  {
  }

  lemma LaunchKeeps(v: View, l: Local, closed: bool)
    requires ViewOk(v) && Matches(v, l) && Unspawned(l.task.pc) && Early(Launch(l, closed).task.pc)
    ensures ViewOk(After(v, Launch(l, closed)))
  {
  }

  lemma RegisterKeeps(v: View, l: Local)
    requires ViewOk(v) && Matches(v, l) && (l.task.pc.Spawned? || l.task.pc.Registering? || l.task.pc.Looked?)
    requires !Past(Register(l).task.pc)
    ensures ViewOk(After(v, Register(l)))
  {
    if l.task.pc == Looked(true) { TellKeeps(v, l); }
  }

  lemma StayKeeps(v: View, l: Local, pc: Pc)
    requires ViewOk(v) && Matches(v, l) && Supervised(l.task.pc) && Supervised(pc)
    requires NeedsLock(pc) == NeedsLock(l.task.pc) && RowMatches(pc, v.row)
    ensures ViewOk(After(v, At(l, pc)))
  {
  }

  lemma MarkKeeps(v: View, l: Local)
    requires ViewOk(v) && Matches(v, l) && l.task.pc == Seen(false) && l.row == Some(Queued)
    ensures ViewOk(After(v, At(l, Reading).(row := Some(Running), lock := Unheld)))
  {
  }

  lemma AttendKeeps(v: View, l: Local)
    requires ViewOk(v) && Matches(v, l) && Supervised(l.task.pc) && !Past(Attend(l).task.pc)
    ensures ViewOk(After(v, Attend(l)))
  {
    var m := Attend(l);
    if l.task.pc == Seen(true) {
      TellKeeps(v, l);
    } else if l.task.pc == Seen(false) {
      MarkKeeps(v, l);
    } else {
      assert m == At(l, m.task.pc);
      StayKeeps(v, l, m.task.pc);
    }
  }

  lemma BeginningKeeps(v: View, l: Local)
    requires ViewOk(v) && Matches(v, l) && l.task.pc.Reading? && l.lock.Unheld?
    ensures ViewOk(After(v, At(l, Beginning).(lock := Mine)))
  {
  }

  lemma SpawnFailedKeeps(v: View, l: Local)
    requires ViewOk(v) && Matches(v, l) && l.task.pc.Checked?
    ensures ViewOk(After(v, At(l, SpawnFailed)))
  {
  }

  lemma WriterDeathKeeps(v: View, l: Local)
    requires ViewOk(v) && Matches(v, l)
    ensures ViewOk(After(v, l.(task := l.task.(writerAlive := false))))
  {
  }

  lemma ReadKeeps(v: View, l: Local, frame: Frame)
    requires ViewOk(v) && Matches(v, l) && l.task.pc.Reading?
    ensures ViewOk(After(v, Reads(l, frame)))
  {
    if Reads(l, frame) == l { assert After(v, l) == v; }
    else if frame.StartedFrame? { BeginningKeeps(v, l); }
    else { StayKeeps(v, l, Final(frame.outcome)); }
  }

  lemma OtherStays(l: Local, what: TaskStep, closed: bool, aborting: bool)
    requires !what.Advance? && !what.WriterDies? && !Past(TaskNext(l, what, closed, aborting).task.pc)
    requires !(what.SpawnFails? && l.task.pc.Checked?) && !(what.Read? && l.task.pc.Reading?)
    ensures TaskNext(l, what, closed, aborting) == l
  {
  }

  lemma OtherKeeps(v: View, l: Local, what: TaskStep, closed: bool, aborting: bool)
    requires ViewOk(v) && Matches(v, l) && !what.Advance?
    requires what.WriterDies? || !Past(TaskNext(l, what, closed, aborting).task.pc)
    ensures ViewOk(After(v, TaskNext(l, what, closed, aborting)))
  {
    if what.WriterDies? { WriterDeathKeeps(v, l); }
    else if what.SpawnFails? && l.task.pc.Checked? { SpawnFailedKeeps(v, l); }
    else if what.Read? && l.task.pc.Reading? { ReadKeeps(v, l, what.frame); }
    else { OtherStays(l, what, closed, aborting); }
  }

  // ---------------------------------------------------------------------------------------------
  // A task's step in the whole system
  // ---------------------------------------------------------------------------------------------

  lemma InstallIsLocal(s: System, id: Id, m: Local)
    requires id in s.tasks && (m.lock.Theirs? <==> LocalOf(s, id).lock.Theirs?)
    ensures ViewOf(Install(s, id, m), id) == After(ViewOf(s, id), m)
    ensures forall other | other != id :: ViewOf(Install(s, id, m), other) == ViewOf(s, other)
  {
  }

  lemma HoldersPut(tasks: map<Id, Task>, id: Id, task: Task)
    ensures Holders(tasks[id := task]) == if HoldsPermit(task.pc) then Holders(tasks) + {id} else Holders(tasks) - {id}
    ensures Counted(tasks[id := task]) == if IsCounted(task.pc) then Counted(tasks) + {id} else Counted(tasks) - {id}
  {
  }

  lemma CountersKeep(s: System, id: Id, m: Local)
    requires id in s.tasks && PermitsOk(s) && ActiveOk(s) && Fair(LocalOf(s, id), m)
    ensures PermitsOk(Install(s, id, m)) && ActiveOk(Install(s, id, m))
  {
    HoldersPut(s.tasks, id, m.task);
    assert id in Holders(s.tasks) <==> HoldsPermit(s.tasks[id].pc);
    assert id in Counted(s.tasks) <==> IsCounted(s.tasks[id].pc);
  }

  lemma IdleKeeps(s: System, id: Id, m: Local)
    requires id in s.tasks && IdleOk(s) && Fair(LocalOf(s, id), m)
    ensures IdleOk(Install(s, id, m))
  {
    var t := Install(s, id, m);
    if s.idle.Parked? && s.idle.seen == s.notifications == t.notifications {
      if m.task.pc.Uncounted? {
        assert t.tasks[id].pc.Uncounted?;
      } else if s.active == 0 {
        var other :| other in s.tasks && s.tasks[other].pc.Uncounted?;
        assert t.tasks[other].pc.Uncounted?;
      }
    }
  }

  lemma ActiveCounts(s: System, id: Id)
    requires id in s.tasks && ActiveOk(s)
    ensures s.active >= One(IsCounted(s.tasks[id].pc))
  {
    if IsCounted(s.tasks[id].pc) { assert id in Counted(s.tasks); }
  }

  lemma ViewsKeep(s: System, t: System, id: Id)
    requires ViewsOk(s) && ViewOk(ViewOf(t, id))
    requires forall other | other != id :: ViewOf(t, other) == ViewOf(s, other)
    ensures ViewsOk(t)
  {
    forall other
      ensures ViewOk(ViewOf(t, other))
    {
      if other != id { assert ViewOf(t, other) == ViewOf(s, other); }
    }
  }

  lemma InstallKeeps(s: System, id: Id, m: Local)
    requires SystemOk(s) && id in s.tasks
    requires Fair(LocalOf(s, id), m) && ViewOk(After(ViewOf(s, id), m))
    ensures SystemOk(Install(s, id, m))
  {
    InstallIsLocal(s, id, m);
    ViewsKeep(s, Install(s, id, m), id);
    CountersKeep(s, id, m);
    IdleKeeps(s, id, m);
  }

  lemma AdvancedKeeps(v: View, l: Local, closed: bool)
    requires ViewOk(v) && Matches(v, l) && Aware(l)
    ensures Fair(l, Advanced(l, closed)) && ViewOk(After(v, Advanced(l, closed)))
  {
    var m := Advanced(l, closed);
    if Unspawned(l.task.pc) {
      LaunchIsSound(l, closed);
      if !Past(m.task.pc) { LaunchKeeps(v, l, closed); }
    } else if Early(l.task.pc) {
      RegisterIsSound(l);
      if !Past(m.task.pc) { RegisterKeeps(v, l); }
    } else if Supervised(l.task.pc) {
      AttendIsSound(l);
      if !Past(m.task.pc) { AttendKeeps(v, l); }
    } else if Concluding(l.task.pc) {
      ConcludeIsSound(l);
    } else {
      CleanUpIsSound(l);
    }
    if Past(m.task.pc) { RetreatKeeps(v, l, m); }
  }

  lemma TaskViewKeeps(v: View, l: Local, what: TaskStep, closed: bool, aborting: bool)
    requires ViewOk(v) && Matches(v, l) && Aware(l)
    ensures var m := TaskNext(l, what, closed, aborting); Fair(l, m) && ViewOk(After(v, m))
  {
    var m := TaskNext(l, what, closed, aborting);
    if what.Advance? {
      AdvancedKeeps(v, l, closed);
    } else {
      OtherIsSound(l, what, closed, aborting);
      if what.WriterDies? || !Past(m.task.pc) {
        OtherKeeps(v, l, what, closed, aborting);
      } else if m != l {
        RetreatKeeps(v, l, m);
      } else {
        assert After(v, m) == v;
      }
    }
  }

  lemma ViewMatches(s: System, id: Id)
    requires SystemOk(s) && id in s.tasks
    ensures ViewOk(ViewOf(s, id)) && Matches(ViewOf(s, id), LocalOf(s, id)) && Aware(LocalOf(s, id))
  {
    assert ViewOk(ViewOf(s, id));
    ActiveCounts(s, id);
  }

  lemma TaskKeeps(s: System, id: Id, what: TaskStep)
    requires SystemOk(s)
    ensures SystemOk(Next(s, TaskDoes(id, what)))
  {
    if id in s.tasks {
      ViewMatches(s, id);
      TaskViewKeeps(ViewOf(s, id), LocalOf(s, id), what, s.closed, Aborts(s.drain));
      InstallKeeps(s, id, TaskNext(LocalOf(s, id), what, s.closed, Aborts(s.drain)));
    }
  }

  // ---------------------------------------------------------------------------------------------
  // The other steps
  // ---------------------------------------------------------------------------------------------

  /** Positions, permits and notifications stay as they are. */
  ghost predicate SameTasks(s: System, t: System) {
    && t.tasks.Keys == s.tasks.Keys && (forall id | id in s.tasks :: t.tasks[id].pc == s.tasks[id].pc)
    && t.slots == s.slots && t.available == s.available && t.active == s.active
    && t.notifications == s.notifications && t.idle == s.idle
  }

  lemma SameTasksKeep(s: System, t: System)
    requires PermitsOk(s) && ActiveOk(s) && IdleOk(s) && SameTasks(s, t)
    ensures PermitsOk(t) && ActiveOk(t) && IdleOk(t)
  {
    assert Holders(t.tasks) == Holders(s.tasks) && Counted(t.tasks) == Counted(s.tasks);
    if SomeoneWillNotify(s) {
      var id :| id in s.tasks && s.tasks[id].pc.Uncounted?;
      assert t.tasks[id].pc.Uncounted?;
    }
  }

  /** A send to a handle obtained under the lock: that supervisor is told, the others are as before. */
  lemma SendTells(task: Task)
    requires CommandsOk(task) && task.commands != []
    ensures CommandsOk(Sent(task)) && Told(Sent(task)) && Sent(task).commands != []
    ensures Sent(task).pc == task.pc
  {
    if task.writerAlive {
      var sent := task.commands + [CancelCommand];
      assert sent[|task.commands|] == CancelCommand;
    }
  }

  /** The move as seen by the execution that is being cancelled. */
  function CancelView(v: View, move: CancelMove): View {
    match move
    case GoOn(stage) => v.(cancel := Some(stage))
    case EndIt(handle) => v.(row := Some(Cancelled), cancel := Some(EndedQueued(handle)), cancelled := true)
    case Tell => v.(cancel := None, task := if v.task.Some? then Some(Sent(v.task.value)) else None)
    case Refuse => v.(cancel := None, refused := true)
    case GiveUp => v.(cancel := None)
  }

  lemma CancelIsSeen(s: System, move: CancelMove)
    requires s.lock.ByCancel?
    ensures ViewOf(CancelMoves(s, s.lock.id, move), s.lock.id) == CancelView(ViewOf(s, s.lock.id), move)
  {
    match move
    case GoOn(_) =>
    case EndIt(_) =>
    case Tell =>
    case Refuse =>
    case GiveUp =>
  }

  lemma CancelIsLocal(s: System, move: CancelMove)
    requires PhasesOk(s) && s.lock.ByCancel?
    ensures forall other | other != s.lock.id :: ViewOf(CancelMoves(s, s.lock.id, move), other) == ViewOf(s, other)
    ensures SameTasks(s, CancelMoves(s, s.lock.id, move)) && PhasesOk(CancelMoves(s, s.lock.id, move))
  {
  }

  /** Leaving the critical section with nothing left to send. */
  lemma ReleaseKeeps(v: View)
    requires ViewOk(v) && v.cancel != Some(EndedQueued(true))
    ensures ViewOk(CancelView(v, GiveUp))
  {
  }

  lemma TellingKeeps(v: View)
    requires ViewOk(v) && v.task.Some? && v.task.value.commands != [] && !v.targeted
    ensures ViewOk(CancelView(v, Tell))
  {
    SendTells(v.task.value);
  }

  lemma RefusalKeeps(v: View)
    requires ViewOk(v) && v.cancel == Some(SawHandle(Running, false))
    ensures ViewOk(CancelView(v, Refuse))
  {
  }

  lemma SightKeeps(v: View, handle: bool, failing: bool)
    requires ViewOk(v) && v.cancel.Some? && (v.cancel.value.Entered? || v.cancel.value.SawState?)
    ensures ViewOk(CancelView(v, CancelDecides(v.cancel.value, v.row, v.handle, failing)))
  {
    if v.cancel.value.Entered? && (failing || v.row.None?) { ReleaseKeeps(v); }
  }

  lemma EndingKeeps(v: View, handle: bool)
    requires ViewOk(v) && v.cancel == Some(SawHandle(Queued, handle)) && IsLive(v.row) && !v.locked
    ensures ViewOk(CancelView(v, EndIt(handle)))
  {
  }

  lemma CancelViewKeeps(v: View, failing: bool)
    requires ViewOk(v) && v.cancel.Some? && !v.targeted && !v.locked
    ensures ViewOk(CancelView(v, CancelDecides(v.cancel.value, v.row, v.handle, failing)))
  {
    var stage := v.cancel.value;
    var move := CancelDecides(stage, v.row, v.handle, failing);
    if stage.Entered? || stage.SawState? { SightKeeps(v, v.handle, failing); }
    else if move.EndIt? { EndingKeeps(v, stage.handle); }
    else if move.Tell? { TellingKeeps(v); }
    else if move.Refuse? { RefusalKeeps(v); }
    else { ReleaseKeeps(v); }
  }

  lemma CancelKeeps(s: System, failing: bool)
    requires SystemOk(s) && s.lock.ByCancel?
    ensures SystemOk(CancelStep(s, failing))
  {
    var t, id := CancelStep(s, failing), s.lock.id;
    var move := CancelDecides(s.lock.stage, RowOf(s.rows, id), id in s.processes, failing);
    CancelIsLocal(s, move);
    CancelIsSeen(s, move);
    CancelViewKeeps(ViewOf(s, id), failing);
    ViewsKeep(s, t, id);
    SameTasksKeep(s, t);
  }

  predicate InOrder(from: Drain, next: Drain) {
    || from == next
    || (!PastQueued(from) && !PastQueued(next) && !next.DrainFailed?)
    || (IsDrained(from) && next.Returned?)
    || (from.Sending? && next.Drained?)
  }

  lemma DrainMoves(v: View, next: Drain)
    requires ViewOk(v) && InOrder(v.drain, next) && !v.targeted
    ensures ViewOk(v.(drain := next))
  {
  }

  /** The drain and the counters move; nothing about one execution does. */
  ghost predicate Moved(s: System, t: System) {
    && t.tasks == s.tasks && t.rows == s.rows && t.processes == s.processes
    && t.cancelled == s.cancelled && t.abandoned == s.abandoned && t.refused == s.refused
    && (t.lock == s.lock || ((s.lock.Free? || s.lock.ByDrain?) && (t.lock.Free? || t.lock.ByDrain?)))
    && !t.drain.Sending?
  }

  lemma MovedViews(s: System, t: System, id: Id)
    requires Moved(s, t)
    ensures ViewOf(t, id) == ViewOf(s, id).(drain := t.drain, targeted := false)
  {
  }

  lemma DrainMovesAll(s: System, t: System)
    requires ViewsOk(s) && InOrder(s.drain, t.drain) && Moved(s, t) && (s.drain.Sending? ==> s.targets == [])
    ensures ViewsOk(t)
  {
    forall id
      ensures ViewOk(ViewOf(t, id))
    {
      assert ViewOk(ViewOf(s, id)) && !ViewOf(s, id).targeted;
      MovedViews(s, t, id);
      DrainMoves(ViewOf(s, id), t.drain);
    }
  }

  lemma DrainStepMoves(s: System)
    requires PhasesOk(s) && !s.drain.Sending?
    ensures InOrder(s.drain, DrainStep(s).drain) && Moved(s, DrainStep(s))
  {
  }

  lemma DrainStepRest(s: System)
    requires PhasesOk(s) && PermitsOk(s) && ActiveOk(s) && IdleOk(s) && !s.drain.Sending?
    ensures var t := DrainStep(s); PhasesOk(t) && PermitsOk(t) && ActiveOk(t) && IdleOk(t)
  {
  }

  lemma DrainStepKeeps(s: System)
    requires SystemOk(s) && !s.drain.Sending?
    ensures SystemOk(DrainStep(s))
  {
    DrainStepMoves(s);
    DrainMovesAll(s, DrainStep(s));
    DrainStepRest(s);
  }

  /** The drain has sent to a handle; `again` says whether it will once more. */
  lemma TargetKeeps(v: View, again: bool)
    requires ViewOk(v) && v.targeted && v.drain.Sending?
    ensures v.task.Some? && ViewOk(v.(task := Some(Sent(v.task.value)), targeted := again))
  {
    SendTells(v.task.value);
  }

  lemma DrainSendTarget(s: System)
    requires s.drain.Sending? && s.targets != [] && s.targets[0] in s.tasks
    ensures var v, w := ViewOf(s, s.targets[0]), ViewOf(DrainStep(s), s.targets[0]);
      v.targeted && v.task.Some? && w == v.(task := Some(Sent(v.task.value)), targeted := w.targeted)
  {
  }

  lemma DrainSendOther(s: System, id: Id)
    requires s.drain.Sending? && s.targets != [] && id != s.targets[0]
    ensures ViewOf(DrainStep(s), id) == ViewOf(s, id)
  {
    assert s.targets == [s.targets[0]] + s.targets[1..];
  }

  lemma DrainSendKeeps(s: System)
    requires SystemOk(s) && s.drain.Sending? && s.targets != []
    ensures SystemOk(DrainStep(s))
  {
    var t := DrainStep(s);
    forall id
      ensures ViewOk(ViewOf(t, id))
    {
      assert ViewOk(ViewOf(s, id));
      if id == s.targets[0] {
        assert ViewOf(s, id).targeted;
        DrainSendTarget(s);
        TargetKeeps(ViewOf(s, id), ViewOf(t, id).targeted);
      } else {
        DrainSendOther(s, id);
      }
    }
    SameTasksKeep(s, t);
  }

  lemma DrainLeavesKeeps(s: System)
    requires SystemOk(s) && s.drain.Sending? && s.targets == []
    ensures SystemOk(DrainStep(s))
  {
    DrainMovesAll(s, DrainStep(s));
    SameTasksKeep(s, DrainStep(s));
  }

  /** Cancelling the queued rows as seen by one execution; `ended` says whether its row was reached. */
  function QueuedView(v: View, failing: bool, ended: bool): View {
    if failing then
      var hit := ended && v.row == Some(Queued);
      v.(row := if hit then Some(Cancelled) else v.row, drain := DrainFailed, abandoned := v.abandoned || hit)
    else v.(row := if v.row == Some(Queued) then Some(Cancelled) else v.row, drain := QueuedCancelled)
  }

  lemma QueuedViewIs(s: System, failing: bool, ended: set<Id>, id: Id)
    requires s.drain.Inside? && s.lock.ByDrain?
    ensures ViewOf(DrainRows(s, failing, ended), id) == QueuedView(ViewOf(s, id), failing, id in ended)
  {
  }

  lemma QueuedViewKeeps(v: View, failing: bool, ended: bool)
    requires ViewOk(v) && v.drain.Inside? && v.cancel.None? && !v.locked && !v.abandoned
    ensures ViewOk(QueuedView(v, failing, ended))
  {
  }

  lemma QueuedRest(s: System, failing: bool, ended: set<Id>)
    requires PhasesOk(s) && s.drain.Inside?
    ensures PhasesOk(DrainRows(s, failing, ended)) && SameTasks(s, DrainRows(s, failing, ended))
  {
  }

  lemma DrainQueuedKeeps(s: System, failing: bool, ended: set<Id>)
    requires SystemOk(s) && s.drain.Inside?
    ensures SystemOk(DrainRows(s, failing, ended))
  {
    var t := DrainRows(s, failing, ended);
    forall id
      ensures ViewOk(ViewOf(t, id))
    {
      assert ViewOk(ViewOf(s, id));
      QueuedViewIs(s, failing, ended, id);
      QueuedViewKeeps(ViewOf(s, id), failing, id in ended);
    }
    QueuedRest(s, failing, ended);
    SameTasksKeep(s, t);
  }

  lemma DrainSnapshotKeeps(s: System, order: seq<Id>)
    requires SystemOk(s) && s.drain.QueuedCancelled? && (set id | id in order) == s.processes
    ensures SystemOk(Next(s, DrainSnapshot(order)))
  {
    var t := Next(s, DrainSnapshot(order));
    forall id
      ensures ViewOk(ViewOf(t, id))
    {
      assert ViewOk(ViewOf(s, id));
      assert id in order <==> id in s.processes;
    }
    SameTasksKeep(s, t);
  }

  lemma DrainTimeoutKeeps(s: System)
    requires SystemOk(s) && s.drain.Drained?
    ensures SystemOk(Next(s, DrainTimeout))
  {
    var t := Next(s, DrainTimeout);
    forall id
      ensures ViewOk(ViewOf(t, id))
    {
      assert ViewOk(ViewOf(s, id));
    }
    SameTasksKeep(s, t);
  }

  lemma IdleStepRest(s: System)
    requires PhasesOk(s) && PermitsOk(s) && ActiveOk(s) && IdleOk(s) && s.drain.Drained?
    ensures var t := IdleStep(s); PhasesOk(t) && PermitsOk(t) && ActiveOk(t) && IdleOk(t)
  {
  }

  lemma IdleStepMoves(s: System)
    requires s.drain.Drained?
    ensures InOrder(s.drain, IdleStep(s).drain) && Moved(s, IdleStep(s))
  {
  }

  lemma IdleStepKeeps(s: System)
    requires SystemOk(s) && s.drain.Drained?
    ensures SystemOk(IdleStep(s))
  {
    IdleStepMoves(s);
    DrainMovesAll(s, IdleStep(s));
    IdleStepRest(s);
  }

  lemma FreshView(v: View)
    requires ViewOk(v) && v.task.None? && v.drain.NotDraining?
    ensures ViewOk(v.(task := Some(Task(Starting, [], true)), row := Some(Queued)))
  {
  }

  lemma CreateSets(tasks: map<Id, Task>, id: Id)
    requires id !in tasks
    ensures var after := tasks[id := Task(Starting, [], true)];
      && Holders(after) == Holders(tasks)
      && Counted(after) == Counted(tasks) + {id} && id !in Counted(tasks)
  {
    HoldersPut(tasks, id, Task(Starting, [], true));
    assert id !in Holders(tasks) && Holders(tasks) - {id} == Holders(tasks);
  }

  lemma CreateIdles(s: System, id: Id)
    requires IdleOk(s) && s.accepting && id !in s.rows && id !in s.tasks
    ensures IdleOk(Next(s, Create(id)))
  {
    if SomeoneWillNotify(s) {
      var other :| other in s.tasks && s.tasks[other].pc.Uncounted?;
      assert Next(s, Create(id)).tasks[other].pc.Uncounted?;
    }
  }

  lemma CreateCounts(s: System, id: Id)
    requires PermitsOk(s) && ActiveOk(s) && IdleOk(s) && s.accepting && id !in s.rows && id !in s.tasks
    ensures var t := Next(s, Create(id)); PermitsOk(t) && ActiveOk(t) && IdleOk(t)
  {
    CreateSets(s.tasks, id);
    CreateIdles(s, id);
    assert |Counted(s.tasks) + {id}| == |Counted(s.tasks)| + 1;
  }

  lemma CreateKeeps(s: System, id: Id)
    requires SystemOk(s) && s.accepting && id !in s.rows && id !in s.tasks
    ensures SystemOk(Next(s, Create(id)))
  {
    var t := Next(s, Create(id));
    assert ViewOk(ViewOf(s, id));
    FreshView(ViewOf(s, id));
    assert ViewOf(t, id) == ViewOf(s, id).(task := Some(Task(Starting, [], true)), row := Some(Queued));
    ViewsKeep(s, t, id);
    CreateCounts(s, id);
  }

  lemma PrunedKeeps(v: View)
    requires ViewOk(v) && v.row.Some? && v.row.value.IsTerminal()
    ensures ViewOk(v.(row := None))
  {
  }

  lemma PrunedViews(s: System, id: Id)
    requires id in s.rows && s.rows[id].IsTerminal()
    ensures var t := Next(s, Prune(id));
      && ViewOf(t, id) == ViewOf(s, id).(row := None)
      && forall other | other != id :: ViewOf(t, other) == ViewOf(s, other)
  {
  }

  lemma PruneKeeps(s: System, id: Id)
    requires SystemOk(s) && id in s.rows && s.rows[id].IsTerminal()
    ensures SystemOk(Next(s, Prune(id)))
  {
    var t := Next(s, Prune(id));
    assert ViewOk(ViewOf(s, id));
    PrunedViews(s, id);
    PrunedKeeps(ViewOf(s, id));
    ViewsKeep(s, t, id);
    SameTasksKeep(s, t);
  }

  lemma LockKeeps(v: View)
    requires ViewOk(v) && v.cancel.None?
    ensures ViewOk(v.(cancel := Some(Entered)))
  {
  }

  lemma ServiceViews(s: System, step: Step, id: Id)
    requires step.BeginExecute? || step.EndExecute? || step.CancelLock?
    ensures var v := ViewOf(s, id);
      ViewOf(Next(s, step), id) ==
        if step.CancelLock? && step.id == id && s.lock.Free? then v.(cancel := Some(Entered)) else v
  {
  }

  lemma ServiceKeeps(s: System, step: Step)
    requires SystemOk(s) && (step.BeginExecute? || step.EndExecute? || step.CancelLock?)
    ensures SystemOk(Next(s, step))
  {
    var t := Next(s, step);
    forall id
      ensures ViewOk(ViewOf(t, id))
    {
      assert ViewOk(ViewOf(s, id));
      ServiceViews(s, step, id);
      if s.lock.Free? { LockKeeps(ViewOf(s, id)); }
    }
    SameTasksKeep(s, t);
  }

  lemma StepKeeps(s: System, step: Step)
    requires SystemOk(s)
    ensures SystemOk(Next(s, step))
  {
    match step
    case TaskDoes(id, what) => TaskKeeps(s, id, what);
    case Create(id) => if s.accepting && id !in s.rows && id !in s.tasks { CreateKeeps(s, id); }
    case CancelNext(failing) =>
      if s.lock.ByCancel? {
        CancelKeeps(s, failing);
      }
    case DrainNext =>
      if !s.drain.Sending? { DrainStepKeeps(s); }
      else if s.targets == [] { DrainLeavesKeeps(s); }
      else { DrainSendKeeps(s); }
    case DrainQueued(failing, ended) => if s.drain.Inside? { DrainQueuedKeeps(s, failing, ended); }
    case DrainSnapshot(order) =>
      if s.drain.QueuedCancelled? && (set id | id in order) == s.processes { DrainSnapshotKeeps(s, order); }
    case DrainTimeout => if s.drain.Drained? { DrainTimeoutKeeps(s); }
    case IdleNext => if s.drain.Drained? { IdleStepKeeps(s); }
    case Prune(id) => if id in s.rows && s.rows[id].IsTerminal() { PruneKeeps(s, id); }
    case BeginExecute => ServiceKeeps(s, step);
    case EndExecute => ServiceKeeps(s, step);
    case CancelLock(_) => ServiceKeeps(s, step);
  }

  lemma {:induction false} RunKeeps(s: System, steps: seq<Step>)
    requires SystemOk(s)
    ensures SystemOk(Run(s, steps))
    decreases |steps|
  {
    if steps != [] {
      RunKeeps(s, steps[..|steps| - 1]);
      StepKeeps(Run(s, steps[..|steps| - 1]), steps[|steps| - 1]);
    }
  }
}
