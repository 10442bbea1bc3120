/** What the lifecycle machine promises over whole runs: slots, cancellation, draining, idleness. */
module LifecycleGuarantees {
  import opened Model
  import opened Supervisor
  import opened Lifecycle
  import opened LifecycleSafety
  import EventLog

  lemma RunIsOk(start: System, steps: seq<Step>)
    requires Initial(start)
    ensures SystemOk(Run(start, steps))
  {
    InitialIsOk(start);
    RunKeeps(start, steps);
  }

  // ---------------------------------------------------------------------------------------------
  // Slots
  // ---------------------------------------------------------------------------------------------

  predicate HasSupervisor(task: Task) {
    task.commands != [] && HoldsPermit(task.pc)
  }

  function Supervisors(tasks: map<Id, Task>): set<Id> {
    set id | id in tasks && HasSupervisor(tasks[id])
  }

  lemma SubsetSize<T>(a: set<T>, b: set<T>)
    requires a <= b
    ensures |a| <= |b|
  {
    assert b == a + (b - a);
  }

  /** At no time are more supervisors attended to than there are slots; every permit is accounted for. */
  lemma SlotsAreBounded(start: System, steps: seq<Step>)
    requires Initial(start)
    ensures var s := Run(start, steps);
      && |Supervisors(s.tasks)| <= s.slots
      && s.available + |Holders(s.tasks)| == s.slots
  {
    RunIsOk(start, steps);
    var s := Run(start, steps);
    SubsetSize(Supervisors(s.tasks), Holders(s.tasks));
  }

  /** The task has left run_execution, through an error or not. */
  predicate Returned(pc: Pc) {
    Past(pc) && !Concluding(pc)
  }

  /** A running row has a task, and that task holds a permit exactly until it leaves run_execution:
      on an error the permit is back before the row is ended. */
  lemma RunningRowsHoldPermits(start: System, steps: seq<Step>, id: Id)
    requires Initial(start) && RowOf(Run(start, steps).rows, id) == Some(Running)
    ensures var s := Run(start, steps);
      id in s.tasks && (id in Holders(s.tasks) <==> !Returned(s.tasks[id].pc))
  {
    RunIsOk(start, steps);
    assert ViewOk(ViewOf(Run(start, steps), id));
  }

  function RunningIds(rows: map<Id, ExecutionState>): set<Id> {
    set id | id in rows && rows[id] == Running
  }

  function ReturnedIds(tasks: map<Id, Task>): set<Id> {
    set id | id in tasks && Returned(tasks[id].pc)
  }

  lemma InsideHoldPermits(start: System, steps: seq<Step>)
    requires Initial(start)
    ensures var s := Run(start, steps); RunningIds(s.rows) - ReturnedIds(s.tasks) <= Holders(s.tasks)
  {
    var s := Run(start, steps);
    forall id | id in RunningIds(s.rows) - ReturnedIds(s.tasks)
      ensures id in Holders(s.tasks)
    {
      RunningRowsHoldPermits(start, steps, id);
    }
  }

  lemma DisjointRest<T>(a: set<T>, b: set<T>)
    requires a * b == {}
    ensures a - b == a
  {
    forall x | x in a ensures x !in b {
      if x in b { assert x in a * b; }
    }
  }

  lemma BoundedBy(running: set<Id>, returned: set<Id>, holders: set<Id>, slots: nat)
    requires running - returned <= holders && |holders| <= slots
    ensures |running - returned| <= slots
    ensures running * returned == {} ==> |running| <= slots
  {
    SubsetSize(running - returned, holders);
    if running * returned == {} { DisjointRest(running, returned); }
  }

  /** So the slots bound the running rows of tasks inside run_execution; they bound all running rows
      as long as no error left one behind. */
  lemma RunningRowsAreBounded(start: System, steps: seq<Step>)
    requires Initial(start)
    ensures var s := Run(start, steps);
      && |RunningIds(s.rows) - ReturnedIds(s.tasks)| <= s.slots
      && (RunningIds(s.rows) * ReturnedIds(s.tasks) == {} ==> |RunningIds(s.rows)| <= s.slots)
  {
    var s := Run(start, steps);
    SlotsAreBounded(start, steps);
    InsideHoldPermits(start, steps);
    BoundedBy(RunningIds(s.rows), ReturnedIds(s.tasks), Holders(s.tasks), s.slots);
  }

  // ---------------------------------------------------------------------------------------------
  // What no step undoes
  // ---------------------------------------------------------------------------------------------

  ghost predicate TaskOnward(row: Option<ExecutionState>, t: Task, u: Task) {
    && t.commands <= u.commands && (u.writerAlive ==> t.writerAlive)
    && (t.commands == [] && u.commands != [] ==> t.pc.Checked?)
    && (u.pc.Checked? ==> t.pc.Checked? || (t.pc.Admitted? && IsLive(row)))
    && (Early(u.pc) ==> Early(t.pc))
    && (Past(t.pc) ==> Past(u.pc))
  }

  predicate RowOnward(before: Option<ExecutionState>, after: Option<ExecutionState>) {
    || after == before
    || (before.None? && after == Some(Queued))
    || (before == Some(Queued) && after == Some(Running))
    || (IsLive(before) && after.Some? && after.value.IsTerminal())
    || (Over(before) && after.None?)
  }

  ghost predicate Onward(v: View, w: View) {
    && (v.task.Some? ==> w.task.Some? && TaskOnward(v.row, v.task.value, w.task.value) && (Over(v.row) ==> Over(w.row)))
    && (w.task.Some? ==> v.task.Some? || v.drain.NotDraining?)
    && (w.row.Some? ==> v.row.Some? || v.drain.NotDraining?)
    && RowOnward(v.row, w.row)
    && (w.drain.NotDraining? ==> v.drain.NotDraining?)
    && (IsDrained(v.drain) ==> IsDrained(w.drain))
    && (v.cancelled ==> w.cancelled)
  }

  lemma LaunchOnward(v: View, l: Local, closed: bool)
    requires ViewOk(v) && Matches(v, l) && Unspawned(l.task.pc)
    ensures Onward(v, After(v, Launch(l, closed)))
  {
  }

  lemma RegisterOnward(v: View, l: Local)
    requires ViewOk(v) && Matches(v, l) && Early(l.task.pc) && !Unspawned(l.task.pc)
    ensures Onward(v, After(v, Register(l)))
  {
  }

  lemma AttendOnward(v: View, l: Local)
    requires ViewOk(v) && Matches(v, l) && Supervised(l.task.pc)
    ensures Onward(v, After(v, Attend(l)))
  {
  }

  lemma RetreatOnward(v: View, l: Local, m: Local)
    requires Matches(v, l) && Retreats(l, m)
    ensures Onward(v, After(v, m))
  {
  }

  /** The task stays outside the ways into and out of its loop. */
  lemma StayOnward(v: View, l: Local, m: Local)
    requires ViewOk(v) && Matches(v, l) && m.row == l.row && m.task == l.task.(pc := m.task.pc)
    requires (l.task.pc.Checked? && m.task.pc.SpawnFailed?) || (Supervised(l.task.pc) && Supervised(m.task.pc))
    ensures Onward(v, After(v, m))
  {
  }

  lemma WriterDeathOnward(v: View, l: Local)
    requires ViewOk(v) && Matches(v, l)
    ensures Onward(v, After(v, l.(task := l.task.(writerAlive := false))))
  {
  }

  lemma OtherOnward(v: View, l: Local, what: TaskStep, closed: bool, aborting: bool)
    requires ViewOk(v) && Matches(v, l) && Aware(l) && !what.Advance?
    ensures Onward(v, After(v, TaskNext(l, what, closed, aborting)))
  {
    var m := TaskNext(l, what, closed, aborting);
    OtherIsSound(l, what, closed, aborting);
    if m == l { assert After(v, l) == v; }
    else if what.WriterDies? { WriterDeathOnward(v, l); }
    else if Past(m.task.pc) { RetreatOnward(v, l, m); }
    else { StayOnward(v, l, m); }
  }

  lemma TaskStepOnward(v: View, l: Local, what: TaskStep, closed: bool, aborting: bool)
    requires ViewOk(v) && Matches(v, l) && Aware(l)
    ensures Onward(v, After(v, TaskNext(l, what, closed, aborting)))
  {
    if !what.Advance? { OtherOnward(v, l, what, closed, aborting); }
    else if Unspawned(l.task.pc) { LaunchOnward(v, l, closed); }
    else if Early(l.task.pc) { RegisterOnward(v, l); }
    else if Supervised(l.task.pc) { AttendOnward(v, l); }
    else if Concluding(l.task.pc) { ConcludeIsSound(l); RetreatOnward(v, l, Conclude(l)); }
    else { CleanUpIsSound(l); RetreatOnward(v, l, CleanUp(l)); }
  }

  /** The other participants touch commands, rows and handles, in one direction each. */
  ghost predicate Nudges(v: View, w: View) {
    && (v.task.Some? <==> w.task.Some?)
    && (v.task.Some? && w.task != v.task ==> v.task.value.commands != [] && w.task.value == Sent(v.task.value))
    && (w.row == v.row || (IsLive(v.row) && w.row == Some(Cancelled)) || (Over(v.row) && w.row.None?))
    && (IsDrained(v.drain) ==> IsDrained(w.drain))
    && (w.drain.NotDraining? ==> v.drain.NotDraining?)
    && (v.cancelled ==> w.cancelled)
  }

  lemma MoveNudges(v: View, move: CancelMove)
    requires move.EndIt? ==> IsLive(v.row)
    requires move.Tell? ==> v.task.Some? && v.task.value.commands != []
    ensures Nudges(v, CancelView(v, move))
  {
  }

  lemma TellsAHandle(v: View, failing: bool)
    requires CancelOk(v) && v.cancel.Some?
    requires CancelDecides(v.cancel.value, v.row, v.handle, failing).Tell?
    ensures v.task.Some? && v.task.value.commands != []
  {
  }

  lemma DrainNudges(s: System, id: Id)
    requires PhasesOk(s) && !s.drain.Sending?
    ensures Nudges(ViewOf(s, id), ViewOf(DrainStep(s), id))
  {
    DrainStepMoves(s);
    MovedViews(s, DrainStep(s), id);
  }

  lemma SendingNudges(s: System, id: Id)
    requires SystemOk(s) && s.drain.Sending?
    ensures Nudges(ViewOf(s, id), ViewOf(DrainStep(s), id))
  {
    assert ViewOk(ViewOf(s, id));
    if s.targets == [] {
      MovedViews(s, DrainStep(s), id);
    } else if id == s.targets[0] {
      assert ViewOf(s, id).targeted;
      DrainSendTarget(s);
    } else {
      DrainSendOther(s, id);
    }
  }

  lemma DrainRowsNudges(s: System, failing: bool, ended: set<Id>, id: Id)
    requires s.drain.Inside?
    ensures Nudges(ViewOf(s, id), ViewOf(DrainRows(s, failing, ended), id))
  {
  }

  lemma SnapshotNudges(s: System, step: Step, id: Id)
    requires step.DrainSnapshot? || step.DrainTimeout?
    ensures Nudges(ViewOf(s, id), ViewOf(Next(s, step), id))
  {
  }

  lemma IdleNudges(s: System, id: Id)
    requires s.drain.Drained?
    ensures Nudges(ViewOf(s, id), ViewOf(IdleStep(s), id))
  {
    IdleStepMoves(s);
    MovedViews(s, IdleStep(s), id);
  }

  lemma ServiceNudges(s: System, step: Step, id: Id)
    requires step.BeginExecute? || step.EndExecute? || step.CancelLock? || step.Prune?
    ensures Nudges(ViewOf(s, id), ViewOf(Next(s, step), id))
  {
  }

  lemma CreateOnward(s: System, added: Id, id: Id)
    requires PhasesOk(s) && s.accepting && added !in s.rows && added !in s.tasks
    ensures Onward(ViewOf(s, id), ViewOf(Next(s, Create(added)), id))
  {
  }

  lemma TaskDoesSeen(s: System, id: Id, what: TaskStep)
    requires SystemOk(s) && id in s.tasks
    ensures var m := TaskNext(LocalOf(s, id), what, s.closed, Aborts(s.drain));
      && ViewOf(Next(s, TaskDoes(id, what)), id) == After(ViewOf(s, id), m)
      && forall other | other != id :: ViewOf(Next(s, TaskDoes(id, what)), other) == ViewOf(s, other)
  {
    ViewMatches(s, id);
    TaskViewKeeps(ViewOf(s, id), LocalOf(s, id), what, s.closed, Aborts(s.drain));
    InstallIsLocal(s, id, TaskNext(LocalOf(s, id), what, s.closed, Aborts(s.drain)));
  }

  lemma TaskDoesOnward(s: System, other: Id, what: TaskStep, id: Id)
    requires SystemOk(s) && other in s.tasks
    ensures Onward(ViewOf(s, id), ViewOf(Next(s, TaskDoes(other, what)), id))
  {
    TaskDoesSeen(s, other, what);
    if other == id {
      ViewMatches(s, id);
      TaskStepOnward(ViewOf(s, id), LocalOf(s, id), what, s.closed, Aborts(s.drain));
    } else {
      assert ViewOf(Next(s, TaskDoes(other, what)), id) == ViewOf(s, id);
    }
  }

  lemma CancelOnward(s: System, failing: bool, id: Id)
    requires SystemOk(s) && s.lock.ByCancel?
    ensures Nudges(ViewOf(s, id), ViewOf(CancelStep(s, failing), id))
  {
    var move := CancelDecides(s.lock.stage, RowOf(s.rows, s.lock.id), s.lock.id in s.processes, failing);
    assert ViewOk(ViewOf(s, s.lock.id));
    CancelIsLocal(s, move);
    if id == s.lock.id {
      CancelIsSeen(s, move);
      if move.Tell? { TellsAHandle(ViewOf(s, id), failing); }
      MoveNudges(ViewOf(s, id), move);
    }
  }

  lemma NudgedOnward(v: View, w: View)
    requires Nudges(v, w)
    ensures Onward(v, w)
  {
  }

  lemma StepNudges(s: System, step: Step, id: Id)
    requires SystemOk(s) && !step.TaskDoes? && !step.Create?
    ensures Nudges(ViewOf(s, id), ViewOf(Next(s, step), id))
  {
    match step
    case CancelNext(failing) => if s.lock.ByCancel? { CancelOnward(s, failing, id); }
    case DrainNext => if s.drain.Sending? { SendingNudges(s, id); } else { DrainNudges(s, id); }
    case DrainQueued(failing, ended) => if s.drain.Inside? { DrainRowsNudges(s, failing, ended, id); }
    case DrainSnapshot(_) => SnapshotNudges(s, step, id);
    case DrainTimeout => SnapshotNudges(s, step, id);
    case IdleNext => if s.drain.Drained? { IdleNudges(s, id); }
    case BeginExecute => ServiceNudges(s, step, id);
    case EndExecute => ServiceNudges(s, step, id);
    case CancelLock(_) => ServiceNudges(s, step, id);
    case Prune(_) => ServiceNudges(s, step, id);
  }

  lemma StepOnward(s: System, step: Step, id: Id)
    requires SystemOk(s)
    ensures Onward(ViewOf(s, id), ViewOf(Next(s, step), id))
  {
    match step
    case TaskDoes(other, what) => if other in s.tasks { TaskDoesOnward(s, other, what, id); }
    case Create(added) => if s.accepting && added !in s.rows && added !in s.tasks { CreateOnward(s, added, id); }
    case _ =>
      StepNudges(s, step, id);
      NudgedOnward(ViewOf(s, id), ViewOf(Next(s, step), id));
  }

  // ---------------------------------------------------------------------------------------------
  // Cancellation
  // ---------------------------------------------------------------------------------------------

  /** No supervisor yet, and the row is ended before the task looks at it for the last time. */
  ghost predicate Barred(v: View) {
    && v.task.Some? && v.task.value.commands == [] && !v.task.value.pc.Checked?
    && (Early(v.task.value.pc) ==> Over(v.row))
  }

  /** A task that found its row ended, or will, never starts a supervisor. */
  lemma {:induction false} BarredForever(s: System, steps: seq<Step>, id: Id)
    requires SystemOk(s) && Barred(ViewOf(s, id))
    ensures SystemOk(Run(s, steps)) && Barred(ViewOf(Run(s, steps), id))
    decreases |steps|
  {
    if steps != [] {
      var init := steps[..|steps| - 1];
      BarredForever(s, init, id);
      StepKeeps(Run(s, init), steps[|steps| - 1]);
      StepOnward(Run(s, init), steps[|steps| - 1], id);
    }
  }

  lemma {:induction false} CancelledForever(s: System, steps: seq<Step>, id: Id)
    requires SystemOk(s) && id in s.cancelled
    ensures SystemOk(Run(s, steps)) && id in Run(s, steps).cancelled
    decreases |steps|
  {
    if steps != [] {
      var init := steps[..|steps| - 1];
      CancelledForever(s, init, id);
      StepKeeps(Run(s, init), steps[|steps| - 1]);
      StepOnward(Run(s, init), steps[|steps| - 1], id);
      assert ViewOf(Run(s, init), id).cancelled && ViewOf(Run(s, steps), id).cancelled;
    }
  }

  /** Once a cancel request has ended a queued execution, then whatever happens later: a supervisor
      that is attended to has been sent a cancel command (unless its control pipe broke, or the very
      request is about to send it); and one that was not started or about to be started by then is
      never started. */
  lemma CancellationIsNotLost(start: System, steps: seq<Step>, later: seq<Step>, id: Id)
    requires Initial(start) && id in Run(start, steps).cancelled
    ensures var s := Run(start, steps); var t := Run(s, later);
      && id in s.tasks && id in t.tasks && Over(RowOf(t.rows, id))
      && (Supervised(t.tasks[id].pc) ==> Told(t.tasks[id]) || t.lock == ByCancel(id, EndedQueued(true)))
      && (s.tasks[id].commands == [] && !s.tasks[id].pc.Checked? ==> t.tasks[id].commands == [])
  {
    RunIsOk(start, steps);
    var s := Run(start, steps);
    CancelledForever(s, later, id);
    assert ViewOk(ViewOf(s, id)) && ViewOf(s, id).cancelled;
    assert ViewOk(ViewOf(Run(s, later), id)) && ViewOf(Run(s, later), id).cancelled;
    if s.tasks[id].commands == [] && !s.tasks[id].pc.Checked? { BarredForever(s, later, id); }
  }

  /** A cancel request fails for want of a handle only if the supervisor's events have ended, or
      after the drain forgot the handles. */
  lemma RefusalsAreJustified(start: System, steps: seq<Step>, id: Id)
    requires Initial(start) && id in Run(start, steps).refused
    ensures var s := Run(start, steps);
      id in s.tasks && (Past(s.tasks[id].pc) || MayBeCleared(s.drain))
  {
    RunIsOk(start, steps);
    assert ViewOk(ViewOf(Run(start, steps), id));
  }

  /** A running execution whose events are still read can be cancelled as soon as the lock is free. */
  lemma RunningCanBeCancelled(s: System, id: Id)
    requires SystemOk(s) && s.lock.Free? && !MayBeCleared(s.drain)
    requires id in s.tasks && Supervised(s.tasks[id].pc) && RowOf(s.rows, id) == Some(Running)
    ensures var t := Next(Next(Next(Next(s, CancelLock(id)), CancelNext(false)), CancelNext(false)), CancelNext(false));
      && t.lock.Free? && t.tasks == s.tasks[id := Sent(s.tasks[id])] && Told(t.tasks[id]) && t.rows == s.rows
  {
    assert ViewOk(ViewOf(s, id));
    SendTells(s.tasks[id]);
    var a := Next(s, CancelLock(id));
    var b := Next(a, CancelNext(false));
    assert b == s.(lock := ByCancel(id, SawState(Running)));
    var c := Next(b, CancelNext(false));
    assert c == s.(lock := ByCancel(id, SawHandle(Running, true)));
  }

  /** The daemon's commands after the first are all cancellations, so a supervisor reading them
      reports nothing but those until the pipe ends, and then that the daemon is gone. */
  lemma CommandsAreWellFormed(start: System, steps: seq<Step>, id: Id)
    requires Initial(start) && id in Run(start, steps).tasks && Run(start, steps).tasks[id].commands != []
    ensures var commands := Run(start, steps).tasks[id].commands; var reports := Reports(commands[1..]);
      && commands[0] == SpawnCommand
      && reports != [] && reports[|reports| - 1] == DaemonGone
      && forall i | 0 <= i < |reports| - 1 :: reports[i] == Internal.Cancel
  {
    RunIsOk(start, steps);
    var s := Run(start, steps);
    assert ViewOk(ViewOf(s, id));
    var controls := s.tasks[id].commands[1..];
    assert forall i | 0 <= i < |controls| :: controls[i] == s.tasks[id].commands[i + 1];
    ControlsFailClosed(controls);
  }

  // ---------------------------------------------------------------------------------------------
  // Draining
  // ---------------------------------------------------------------------------------------------

  /** What holds of one execution once the drain has left its critical section in state v. */
  ghost predicate DrainHolds(v: View, w: View) {
    && IsDrained(w.drain)
    && w.row != Some(Queued)
    && (w.task.Some? ==> v.task.Some?) && (w.row.Some? ==> v.row.Some?)
    && (w.row == Some(Running) ==> v.row == Some(Running))
    && (w.task.Some? && Supervised(w.task.value.pc) ==> Told(w.task.value))
  }

  lemma {:induction false} DrainedForever(s: System, steps: seq<Step>, id: Id)
    requires SystemOk(s) && IsDrained(s.drain)
    ensures SystemOk(Run(s, steps)) && DrainHolds(ViewOf(s, id), ViewOf(Run(s, steps), id))
    decreases |steps|
  {
    if steps == [] {
      assert ViewOk(ViewOf(s, id));
    } else {
      var init := steps[..|steps| - 1];
      DrainedForever(s, init, id);
      StepKeeps(Run(s, init), steps[|steps| - 1]);
      StepOnward(Run(s, init), steps[|steps| - 1], id);
      assert ViewOk(ViewOf(Run(s, steps), id));
    }
  }

  /** After the drain's critical section nothing is queued, accepted or starts running ever again,
      every supervisor that is attended to was sent a cancel command (unless its control pipe
      broke), and only a task that had already checked its row can still start one. */
  lemma DrainIsFinal(start: System, steps: seq<Step>, later: seq<Step>)
    requires Initial(start) && IsDrained(Run(start, steps).drain)
    ensures var s := Run(start, steps); var t := Run(s, later);
      && QueuedIds(t.rows) == {} && t.rows.Keys <= s.rows.Keys && t.tasks.Keys <= s.tasks.Keys
      && (forall id | id in t.rows && t.rows[id] == Running :: s.rows[id] == Running)
      && (forall id | id in t.tasks && Supervised(t.tasks[id].pc) :: Told(t.tasks[id]))
      && (forall id | id in t.tasks && t.tasks[id].commands != [] ::
            s.tasks[id].commands != [] || s.tasks[id].pc.Checked?)
  {
    RunIsOk(start, steps);
    var s := Run(start, steps);
    var t := Run(s, later);
    forall id
      ensures DrainHolds(ViewOf(s, id), ViewOf(t, id))
      ensures id in t.tasks && t.tasks[id].commands != [] ==> s.tasks[id].commands != [] || s.tasks[id].pc.Checked?
    {
      DrainedForever(s, later, id);
      if id in t.tasks && s.tasks[id].commands == [] && !s.tasks[id].pc.Checked? {
        assert ViewOk(ViewOf(s, id));
        BarredForever(s, later, id);
        assert ViewOf(t, id).task == Some(t.tasks[id]);
      }
    }
    forall id | id in t.rows
      ensures id in s.rows && t.rows[id] != Queued && (t.rows[id] == Running ==> s.rows[id] == Running)
    {
      assert DrainHolds(ViewOf(s, id), ViewOf(t, id));
    }
    forall id | id in t.tasks
      ensures id in s.tasks && (Supervised(t.tasks[id].pc) ==> Told(t.tasks[id]))
    {
      assert DrainHolds(ViewOf(s, id), ViewOf(t, id));
    }
  }

  /** Queued work can still spawn during shutdown exactly if its task had checked the row before:
      that supervisor starts, and is sent its cancel command when it registers. */
  lemma CheckedTasksStillSpawn(s: System, id: Id)
    requires SystemOk(s) && IsDrained(s.drain) && id in s.tasks && s.tasks[id].commands == []
    ensures s.tasks[id].pc.Checked? <==> Next(s, TaskDoes(id, Advance)).tasks[id].commands != []
    ensures s.tasks[id].pc.Checked? ==> Over(RowOf(s.rows, id))
  {
    assert ViewOk(ViewOf(s, id));
    StepOnward(s, TaskDoes(id, Advance), id);
    assert ViewOf(Next(s, TaskDoes(id, Advance)), id).task.Some?;
  }

  /** A supervisor attended to whose execution is over and that was not told, while neither a cancel
      request nor the drain is about to tell it inside the critical section. Its own task still will,
      if it gets to read the started frame. */
  ghost predicate Stranded(v: View) {
    v.task.Some? && Supervised(v.task.value.pc) && Over(v.row) && !Told(v.task.value) && !Pending(v)
  }

  /** In every run, only a drain that the store fails leaves a supervisor stranded. */
  lemma OnlyFailedDrainsStrand(start: System, steps: seq<Step>, id: Id)
    requires Initial(start) && Stranded(ViewOf(Run(start, steps), id))
    ensures id in Run(start, steps).abandoned && Run(start, steps).drain.DrainFailed?
  {
    RunIsOk(start, steps);
    assert ViewOk(ViewOf(Run(start, steps), id));
  }

  /** Exactly the supervisors, not told before, of the queued rows it did end. */
  lemma FailedDrainStrandsSupervisors(start: System, steps: seq<Step>, failing: bool, ended: set<Id>, id: Id)
    requires Initial(start) && Run(start, steps).drain.Inside?
    ensures var s := Run(start, steps); var t := Next(s, DrainQueued(failing, ended));
      Stranded(ViewOf(t, id)) <==>
        && failing && id in ended && RowOf(s.rows, id) == Some(Queued)
        && id in s.tasks && Supervised(s.tasks[id].pc) && !Told(s.tasks[id])
  {
    RunIsOk(start, steps);
    var s := Run(start, steps);
    assert ViewOk(ViewOf(s, id));
    QueuedViewIs(s, failing, ended, id);
  }

  lemma StartedFrameRead(s: System, id: Id)
    requires id in s.tasks && s.tasks[id].pc.Reading? && s.lock.Free? && id in s.rows && s.rows[id].IsTerminal()
    ensures var b := Next(Next(s, TaskDoes(id, Read(StartedFrame))), TaskDoes(id, Advance));
      && b.tasks == s.tasks[id := s.tasks[id].(pc := Seen(true))] && b.rows == s.rows && b.lock == ByTask(id)
  {
    var a := Next(s, TaskDoes(id, Read(StartedFrame)));
    assert a.tasks == s.tasks[id := s.tasks[id].(pc := Beginning)] && a.lock == ByTask(id);
    assert a.rows == s.rows[id := s.rows[id]] == s.rows;
    assert a.rows[id := a.rows[id]] == s.rows;
  }

  lemma BehindTheFrame(b: System, s: System, id: Id)
    requires id in s.tasks && s.tasks[id].pc.Reading? && id in s.rows
    requires b.tasks == s.tasks[id := s.tasks[id].(pc := Seen(true))] && b.rows == s.rows && b.lock == ByTask(id)
    ensures var t := Next(b, TaskDoes(id, Advance));
      t.tasks == s.tasks[id := Sent(s.tasks[id])] && t.lock.Free? && t.rows == s.rows
  {
    assert b.rows[id := b.rows[id]] == s.rows;
    assert b.tasks[id := Sent(s.tasks[id])] == s.tasks[id := Sent(s.tasks[id])];
  }

  /** The started frame ends it: with the lock free and the row still there, the task tells its
      supervisor in its next three steps. */
  lemma StartedFrameTells(s: System, id: Id)
    requires SystemOk(s) && Stranded(ViewOf(s, id))
    requires s.lock.Free? && s.tasks[id].pc.Reading? && id in s.rows
    ensures var a := Next(s, TaskDoes(id, Read(StartedFrame))); var b := Next(a, TaskDoes(id, Advance));
      var t := Next(b, TaskDoes(id, Advance));
      && t.tasks == s.tasks[id := Sent(s.tasks[id])] && CancelCommand in t.tasks[id].commands
      && t.lock.Free? && t.rows == s.rows
  {
    assert ViewOk(ViewOf(s, id)) && Over(RowOf(s.rows, id));
    SendTells(s.tasks[id]);
    StartedFrameRead(s, id);
    BehindTheFrame(Next(Next(s, TaskDoes(id, Read(StartedFrame))), TaskDoes(id, Advance)), s, id);
  }

  /** Nobody but its task will tell the supervisor any more. */
  ghost predicate Forsaken(v: View) {
    && v.task.Some? && !Early(v.task.value.pc) && Over(v.row) && v.drain.DrainFailed?
    && (v.cancel.Some? ==> WillNotTell(v.cancel.value))
  }

  predicate WillNotTell(stage: CancelStage) {
    stage != EndedQueued(true) && (stage.SawState? || stage.SawHandle? ==> stage.state != Running)
  }

  lemma StrandedIsForsaken(s: System, id: Id)
    requires SystemOk(s) && Stranded(ViewOf(s, id))
    ensures Forsaken(ViewOf(s, id))
  {
    assert ViewOk(ViewOf(s, id));
    assert id in s.abandoned;
  }

  /** The task, having read the started frame and found its row over, tells its supervisor. */
  predicate TellsAtStart(s: System, step: Step, id: Id) {
    step == TaskDoes(id, Advance) && id in s.tasks && s.tasks[id].pc == Seen(true) && s.tasks[id].writerAlive
  }

  ghost predicate IsTold(v: View) {
    v.task.Some? && CancelCommand in v.task.value.commands
  }

  /** Before the started frame, or behind it. */
  predicate AwayFromStart(v: View) {
    v.task.Some? && !v.task.value.pc.Beginning? && !v.task.value.pc.Seen?
  }

  /** What one step does to a supervisor that only its task will tell. */
  ghost predicate StaysForsaken(v: View, w: View, tells: bool, frame: bool) {
    && Forsaken(w)
    && (IsTold(w) <==> IsTold(v) || tells)
    && (AwayFromStart(v) && !frame ==> AwayFromStart(w))
  }

  lemma TaskCommands(l: Local, what: TaskStep, closed: bool, aborting: bool)
    requires !Early(l.task.pc)
    ensures var m := TaskNext(l, what, closed, aborting);
      m.task.commands ==
        if what.Advance? && l.task.pc == Seen(true) then Sent(l.task).commands else l.task.commands
  {
  }

  lemma TaskStarts(l: Local, what: TaskStep, closed: bool, aborting: bool)
    requires !Early(l.task.pc) && !l.task.pc.Beginning? && !l.task.pc.Seen? && what != Read(StartedFrame)
    ensures var m := TaskNext(l, what, closed, aborting); !m.task.pc.Beginning? && !m.task.pc.Seen?
  {
  }

  lemma TaskForsakes(v: View, l: Local, what: TaskStep, closed: bool, aborting: bool)
    requires Forsaken(v) && Matches(v, l) && Onward(v, After(v, TaskNext(l, what, closed, aborting)))
    ensures StaysForsaken(v, After(v, TaskNext(l, what, closed, aborting)),
                          what.Advance? && l.task.pc == Seen(true) && l.task.writerAlive, what == Read(StartedFrame))
  {
    TaskCommands(l, what, closed, aborting);
    if AwayFromStart(v) && what != Read(StartedFrame) { TaskStarts(l, what, closed, aborting); }
  }

  lemma CancelGoesOn(stage: CancelStage, row: Option<ExecutionState>, handle: bool, failing: bool)
    requires WillNotTell(stage) && Over(row)
    ensures var move := CancelDecides(stage, row, handle, failing);
      !move.Tell? && !move.EndIt? && (move.GoOn? ==> WillNotTell(move.stage))
  {
  }

  lemma CancelForsakes(v: View, move: CancelMove)
    requires Forsaken(v) && !move.Tell? && !move.EndIt? && (move.GoOn? ==> WillNotTell(move.stage))
    ensures StaysForsaken(v, CancelView(v, move), false, false)
  {
  }

  lemma ServiceForsakes(s: System, step: Step, id: Id)
    requires Forsaken(ViewOf(s, id)) && !step.TaskDoes? && !(step.CancelNext? && s.lock.ByCancel?)
    ensures StaysForsaken(ViewOf(s, id), ViewOf(Next(s, step), id), false, false)
  {
  }

  lemma StepForsakes(s: System, step: Step, id: Id)
    requires SystemOk(s) && Forsaken(ViewOf(s, id))
    ensures StaysForsaken(ViewOf(s, id), ViewOf(Next(s, step), id), TellsAtStart(s, step, id),
                          step == TaskDoes(id, Read(StartedFrame)))
  {
    if step.TaskDoes? && step.id in s.tasks {
      TaskDoesSeen(s, step.id, step.what);
      if step.id == id {
        ViewMatches(s, id);
        TaskStepOnward(ViewOf(s, id), LocalOf(s, id), step.what, s.closed, Aborts(s.drain));
        TaskForsakes(ViewOf(s, id), LocalOf(s, id), step.what, s.closed, Aborts(s.drain));
      } else {
        assert ViewOf(Next(s, step), id) == ViewOf(s, id);
      }
    } else if step.CancelNext? && s.lock.ByCancel? {
      var move := CancelDecides(s.lock.stage, RowOf(s.rows, s.lock.id), s.lock.id in s.processes, step.failing);
      CancelIsLocal(s, move);
      CancelIsSeen(s, move);
      if s.lock.id == id {
        CancelGoesOn(s.lock.stage, RowOf(s.rows, id), id in s.processes, step.failing);
        CancelForsakes(ViewOf(s, id), move);
      }
    } else if !step.TaskDoes? {
      ServiceForsakes(s, step, id);
    }
  }

  /** At some step of the run its task tells the supervisor, behind the started frame. */
  predicate EverTellsAtStart(s: System, steps: seq<Step>, id: Id) {
    if steps == [] then false
    else
      var n := |steps| - 1;
      EverTellsAtStart(s, steps[..n], id) || TellsAtStart(Run(s, steps[..n]), steps[n], id)
  }

  /** Stranding lasts until the started frame: in every continuation the supervisor is sent a cancel
      command iff its task gets behind that frame with the control pipe intact. One whose started
      frame is never read stays untold. */
  lemma {:induction false} StrandedUntilStarted(s: System, steps: seq<Step>, id: Id)
    requires SystemOk(s) && Stranded(ViewOf(s, id))
    ensures SystemOk(Run(s, steps)) && Forsaken(ViewOf(Run(s, steps), id)) && id in Run(s, steps).tasks
    ensures CancelCommand in Run(s, steps).tasks[id].commands <==> EverTellsAtStart(s, steps, id)
    ensures AwayFromStart(ViewOf(s, id)) && TaskDoes(id, Read(StartedFrame)) !in steps ==>
      AwayFromStart(ViewOf(Run(s, steps), id)) && !EverTellsAtStart(s, steps, id)
    decreases |steps|
  {
    if steps == [] {
      StrandedIsForsaken(s, id);
    } else {
      var init, last := steps[..|steps| - 1], steps[|steps| - 1];
      StrandedUntilStarted(s, init, id);
      StepKeeps(Run(s, init), last);
      StepForsakes(Run(s, init), last, id);
      assert last in steps;
    }
  }

  // ---------------------------------------------------------------------------------------------
  // Waiting for idleness
  // ---------------------------------------------------------------------------------------------

  /** The drain does not sleep through the last task's end: once all tasks are gone, its own steps
      complete it. */
  lemma IdleWaitEnds(start: System, steps: seq<Step>)
    requires Initial(start)
    requires var s := Run(start, steps); s.drain.Drained? && forall id | id in s.tasks :: s.tasks[id].pc.Gone?
    ensures var s := Run(start, steps);
      Next(Next(Next(s, IdleNext), IdleNext), IdleNext).drain.Returned?
  {
    RunIsOk(start, steps);
    var s := Run(start, steps);
    assert Counted(s.tasks) == {};
    assert !SomeoneWillNotify(s);
    if s.idle.Parked? { assert s.notifications > s.idle.seen; }
  }

  // ---------------------------------------------------------------------------------------------
  // The rows are those of the store
  // ---------------------------------------------------------------------------------------------

  function States(rows: EventLog.Rows): map<Id, ExecutionState> {
    map id | id in rows :: rows[id].execution.state
  }

  /** What a store command does to the state of one execution. */
  function StateAfter(row: Option<ExecutionState>, command: EventLog.Command, id: Id): Option<ExecutionState> {
    match command
    case CreateExecution(other, _, _, _, _) => if other == id && row.None? then Some(Queued) else row
    case MarkRunning(other, _, _, _) => if other == id && row == Some(Queued) then Some(Running) else row
    case AppendCaptureBatch(_) => row
    case Finish(other, state, _, _) => if other == id && IsLive(row) && state.IsTerminal() then Some(state) else row
    case CancelQueued(_) => if row == Some(Queued) then Some(Cancelled) else row
    case ReconcileIncomplete(_) => if IsLive(row) then Some(Interrupted) else row
    case Prune(removed) => if id in removed && Over(row) then None else row
  }

  lemma StoreCommandsAgree(rows: EventLog.Rows, command: EventLog.Command, id: Id)
    requires EventLog.RowsOk(rows)
    ensures RowOf(States(EventLog.Apply(rows, command)), id) == StateAfter(RowOf(States(rows), id), command, id)
  {
    if command.AppendCaptureBatch? && EventLog.BatchAccepted(rows, command.records) {
      EventLog.BatchKeeps(rows, command.records);
    }
  }

  /** The store command a task's next step issues, by where the task stands. */
  function TaskCommand(pc: Pc, id: Id): Option<EventLog.Command> {
    match pc
    case SpawnFailed => Some(EventLog.Finish(id, Finished, SpawnError("could not start the supervisor"), 0))
    case Seen(false) => Some(EventLog.MarkRunning(id, 0, 0, 0))
    case Deciding(outcome) => Some(EventLog.Finish(id, StateFor(outcome), outcome, 0))
    case Unfinished => Some(EventLog.Finish(id, Interrupted, InterruptedBy("no terminal event"), 0))
    case FailingSeen => Some(EventLog.Finish(id, Interrupted, InterruptedBy("the execution failed"), 0))
    case _ => None
  }

  /** The store command a step issues that concerns an execution; reads are left out. */
  function CommandFor(s: System, step: Step, id: Id): Option<EventLog.Command> {
    match step
    case Create(added) =>
      if added == id && s.accepting && id !in s.rows && id !in s.tasks
      then Some(EventLog.CreateExecution(id, "", None, "", 0)) else None
    case TaskDoes(other, what) =>
      if other == id && id in s.tasks && what.Advance? then TaskCommand(s.tasks[id].pc, id) else None
    case CancelNext(failing) =>
      if s.lock.ByCancel? && s.lock.id == id && !failing && s.lock.stage.SawHandle? && s.lock.stage.state == Queued
      then Some(EventLog.Finish(id, Cancelled, CancelledBy(None), 0)) else None
    case DrainQueued(failing, ended) =>
      if !s.drain.Inside? then None
      else if !failing then Some(EventLog.CancelQueued(0))
      else if id in ended && id in QueuedIds(s.rows) then Some(EventLog.Finish(id, Cancelled, CancelledBy(None), 0))
      else None
    case Prune(other) => Some(EventLog.Prune({other}))
    case _ => None
  }

  ghost predicate Obeys(before: Option<ExecutionState>, command: Option<EventLog.Command>,
                        after: Option<ExecutionState>, id: Id)
  {
    after == if command.Some? then StateAfter(before, command.value, id) else before
  }

  lemma AdvancedObeys(l: Local, closed: bool, id: Id)
    ensures Obeys(l.row, TaskCommand(l.task.pc, id), Advanced(l, closed).row, id)
  {
  }

  lemma OtherTaskStepsObey(l: Local, what: TaskStep, closed: bool, aborting: bool)
    requires !what.Advance?
    ensures TaskNext(l, what, closed, aborting).row == l.row
  {
  }

  lemma TaskStepObeys(s: System, other: Id, what: TaskStep, id: Id)
    requires SystemOk(s) && other in s.tasks
    ensures var step := TaskDoes(other, what);
      Obeys(RowOf(s.rows, id), CommandFor(s, step, id), RowOf(Next(s, step).rows, id), id)
  {
    TaskDoesSeen(s, other, what);
    if other == id {
      var m := TaskNext(LocalOf(s, id), what, s.closed, Aborts(s.drain));
      assert ViewOf(Next(s, TaskDoes(id, what)), id).row == m.row;
      if what.Advance? {
        AdvancedObeys(LocalOf(s, id), s.closed, id);
      } else {
        OtherTaskStepsObey(LocalOf(s, id), what, s.closed, Aborts(s.drain));
      }
    } else {
      assert ViewOf(Next(s, TaskDoes(other, what)), id) == ViewOf(s, id);
    }
  }

  lemma CancelObeys(s: System, failing: bool, id: Id)
    requires s.lock.ByCancel?
    ensures Obeys(RowOf(s.rows, id), CommandFor(s, CancelNext(failing), id), RowOf(CancelStep(s, failing).rows, id), id)
  {
  }

  lemma DrainRowsObey(s: System, failing: bool, ended: set<Id>, id: Id)
    requires s.drain.Inside?
    ensures Obeys(RowOf(s.rows, id), CommandFor(s, DrainQueued(failing, ended), id),
                  RowOf(DrainRows(s, failing, ended).rows, id), id)
  {
  }

  lemma DrainStepLeavesRows(s: System)
    ensures DrainStep(s).rows == s.rows
  {
  }

  lemma IdleStepLeavesRows(s: System)
    ensures IdleStep(s).rows == s.rows
  {
  }

  /** Every step changes the rows as the store command does that the program issues there, and a step
      that issues none changes no row. */
  lemma StepsAreStoreCommands(s: System, step: Step, id: Id)
    requires SystemOk(s)
    ensures Obeys(RowOf(s.rows, id), CommandFor(s, step, id), RowOf(Next(s, step).rows, id), id)
  {
    match step
    case TaskDoes(other, what) => if other in s.tasks { TaskStepObeys(s, other, what, id); }
    case CancelNext(failing) => if s.lock.ByCancel? { CancelObeys(s, failing, id); }
    case DrainQueued(failing, ended) => if s.drain.Inside? { DrainRowsObey(s, failing, ended, id); }
    case DrainNext => DrainStepLeavesRows(s);
    case IdleNext => IdleStepLeavesRows(s);
    case _ =>
  }
}
