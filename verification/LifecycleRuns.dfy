/** Runs of the lifecycle machine that reach the states its guarantees make exceptions for. */
module LifecycleRuns {
  import opened Model
  import opened Supervisor
  import opened Lifecycle
  import opened LifecycleSafety
  import opened LifecycleGuarantees

  function Empty(slots: nat): System {
    System(Accepting, false, map[], map[], {}, Free, slots, slots, false, 0, 0, NotWaiting, NotDraining, [],
           {}, {}, {})
  }

  lemma EmptyIsInitial(slots: nat)
    ensures Initial(Empty(slots))
  {
  }

  lemma {:induction false} RunConcat(s: System, a: seq<Step>, b: seq<Step>)
    ensures Run(s, a + b) == Run(Run(s, a), b)
    decreases |b|
  {
    if b == [] {
      assert a + b == a;
    } else {
      assert (a + b)[..|a + b| - 1] == a + b[..|b| - 1];
      RunConcat(s, a, b[..|b| - 1]);
    }
  }

  /** One more step of a run that leads from start to s. */
  lemma Then(start: System, steps: seq<Step>, s: System, step: Step, t: System) returns (longer: seq<Step>)
    requires Run(start, steps) == s && Next(s, step) == t
    ensures Run(start, longer) == t
  {
    longer := steps + [step];
    assert longer[..|steps|] == steps;
  }

  /** The system with another state of one task and, as far as they go with it, its surroundings. */
  function With(s: System, id: Id, task: Task, lock: Holder, available: nat): System {
    s.(tasks := s.tasks[id := task], lock := lock, available := available)
  }

  /** A task's step that leaves its row and its handle alone. */
  lemma TaskMoves(s: System, id: Id, what: TaskStep, task: Task, lock: Holder, available: nat)
    requires id in s.tasks
    requires var l := LocalOf(s, id); var m := TaskNext(l, what, s.closed, Aborts(s.drain));
      && m.task == task && m.row == l.row && m.handle == l.handle && m.available == available
      && m.active == l.active && m.notifications == l.notifications
      && lock == (if m.lock.Unheld? then Free else if m.lock.Mine? then ByTask(id) else s.lock)
    ensures Next(s, TaskDoes(id, what)) == With(s, id, task, lock, available)
  {
    assert id in s.rows ==> s.rows[id := s.rows[id]] == s.rows;
    assert id !in s.rows ==> s.rows - {id} == s.rows;
    assert id in s.processes ==> s.processes + {id} == s.processes;
    assert id !in s.processes ==> s.processes - {id} == s.processes;
  }

  lemma WithTwice(s: System, id: Id, a: Task, lockA: Holder, freeA: nat, b: Task, lockB: Holder, freeB: nat)
    ensures With(With(s, id, a, lockA, freeA), id, b, lockB, freeB) == With(s, id, b, lockB, freeB)
  {
    assert s.tasks[id := a][id := b] == s.tasks[id := b];
  }

  /** A queued execution whose task has not begun, with nobody in its way. */
  ghost predicate CanBegin(s: System, id: Id) {
    && id in s.tasks && s.tasks[id] == Task(Starting, [], true) && RowOf(s.rows, id) == Some(Queued)
    && id !in s.processes && s.lock.Free? && s.available > 0 && !s.closed && !Aborts(s.drain)
  }

  /** The task checks its row. */
  lemma ToChecked(start: System, steps: seq<Step>, s: System, id: Id) returns (longer: seq<Step>)
    requires Run(start, steps) == s && CanBegin(s, id)
    ensures Run(start, longer) == With(s, id, Task(Checked, [], true), Free, s.available - 1)
  {
    var a := With(s, id, Task(Queueing, [], true), Free, s.available);
    var b := With(s, id, Task(Admitted, [], true), Free, s.available - 1);
    var c := With(s, id, Task(Checked, [], true), Free, s.available - 1);
    TaskMoves(s, id, Advance, a.tasks[id], Free, s.available);
    longer := Then(start, steps, s, TaskDoes(id, Advance), a);
    TaskMoves(a, id, Advance, b.tasks[id], Free, s.available - 1);
    WithTwice(s, id, a.tasks[id], Free, s.available, b.tasks[id], Free, s.available - 1);
    longer := Then(start, longer, a, TaskDoes(id, Advance), b);
    TaskMoves(b, id, Advance, c.tasks[id], Free, s.available - 1);
    WithTwice(s, id, b.tasks[id], Free, s.available - 1, c.tasks[id], Free, s.available - 1);
    longer := Then(start, longer, b, TaskDoes(id, Advance), c);
  }

  /** Its supervisor is up and registered. */
  function Registered(s: System, id: Id): System {
    With(s, id, Task(Reading, [SpawnCommand], true), Free, s.available).(processes := s.processes + {id})
  }

  lemma ToReading(start: System, steps: seq<Step>, s: System, id: Id) returns (longer: seq<Step>)
    requires Run(start, steps) == s && id in s.tasks && s.tasks[id] == Task(Checked, [], true)
    requires RowOf(s.rows, id) == Some(Queued) && id !in s.processes && s.lock.Free?
    ensures Run(start, longer) == Registered(s, id)
  {
    var a := With(s, id, Task(Spawned, [SpawnCommand], true), Free, s.available);
    var b := With(s, id, Task(Registering, [SpawnCommand], true), ByTask(id), s.available);
    var c := With(s, id, Task(Looked(false), [SpawnCommand], true), ByTask(id), s.available);
    TaskMoves(s, id, Advance, a.tasks[id], Free, s.available);
    longer := Then(start, steps, s, TaskDoes(id, Advance), a);
    TaskMoves(a, id, Advance, b.tasks[id], ByTask(id), s.available);
    WithTwice(s, id, a.tasks[id], Free, s.available, b.tasks[id], ByTask(id), s.available);
    longer := Then(start, longer, a, TaskDoes(id, Advance), b);
    TaskMoves(b, id, Advance, c.tasks[id], ByTask(id), s.available);
    WithTwice(s, id, b.tasks[id], ByTask(id), s.available, c.tasks[id], ByTask(id), s.available);
    longer := Then(start, longer, b, TaskDoes(id, Advance), c);
    Registers(s, c, id);
    longer := Then(start, longer, c, TaskDoes(id, Advance), Registered(s, id));
  }

  lemma Registers(s: System, c: System, id: Id)
    requires c == With(s, id, Task(Looked(false), [SpawnCommand], true), ByTask(id), s.available)
    requires RowOf(s.rows, id) == Some(Queued)
    ensures Next(c, TaskDoes(id, Advance)) == Registered(s, id)
  {
    assert c.rows[id := c.rows[id]] == c.rows;
    assert c.tasks[id := Task(Reading, [SpawnCommand], true)] == s.tasks[id := Task(Reading, [SpawnCommand], true)];
  }

  /** Its child has started. */
  function Started(s: System, id: Id): System {
    s.(rows := s.rows[id := Running])
  }

  lemma ToRunning(start: System, steps: seq<Step>, s: System, id: Id) returns (longer: seq<Step>)
    requires Run(start, steps) == s && id in s.tasks && s.tasks[id] == Task(Reading, [SpawnCommand], true)
    requires RowOf(s.rows, id) == Some(Queued) && id in s.processes && s.lock.Free?
    ensures Run(start, longer) == Started(s, id)
  {
    var a := With(s, id, Task(Beginning, [SpawnCommand], true), ByTask(id), s.available);
    var b := With(s, id, Task(Seen(false), [SpawnCommand], true), ByTask(id), s.available);
    TaskMoves(s, id, Read(StartedFrame), a.tasks[id], ByTask(id), s.available);
    longer := Then(start, steps, s, TaskDoes(id, Read(StartedFrame)), a);
    TaskMoves(a, id, Advance, b.tasks[id], ByTask(id), s.available);
    WithTwice(s, id, a.tasks[id], ByTask(id), s.available, b.tasks[id], ByTask(id), s.available);
    longer := Then(start, longer, a, TaskDoes(id, Advance), b);
    Starts(s, b, id);
    longer := Then(start, longer, b, TaskDoes(id, Advance), Started(s, id));
  }

  lemma Starts(s: System, b: System, id: Id)
    requires b == With(s, id, Task(Seen(false), [SpawnCommand], true), ByTask(id), s.available)
    requires id in s.tasks && s.tasks[id] == Task(Reading, [SpawnCommand], true)
    requires RowOf(s.rows, id) == Some(Queued) && id in s.processes && s.lock.Free?
    ensures Next(b, TaskDoes(id, Advance)) == Started(s, id)
  {
    assert b.tasks[id := s.tasks[id]] == s.tasks;
    assert s.processes + {id} == s.processes;
  }

  /** An accepted execution. */
  function Accepted(s: System, id: Id): System {
    s.(tasks := s.tasks[id := Task(Starting, [], true)], rows := s.rows[id := Queued], active := s.active + 1)
  }

  lemma ToAccepted(start: System, steps: seq<Step>, s: System, id: Id) returns (longer: seq<Step>)
    requires Run(start, steps) == s && !s.accepting && s.service == Accepting && id !in s.rows && id !in s.tasks
    ensures Run(start, longer) == Accepted(s, id)
  {
    longer := Then(start, steps, s, BeginExecute, s.(accepting := true));
    longer := Then(start, longer, s.(accepting := true), Create(id), Accepted(s, id).(accepting := true));
    longer := Then(start, longer, Accepted(s, id).(accepting := true), EndExecute, Accepted(s, id));
  }

  /** The drain comes up to its critical section. */
  function Draining(s: System): System {
    s.(service := Service.Draining, closed := true, lock := ByDrain, drain := Inside)
  }

  lemma ToInside(start: System, steps: seq<Step>, s: System) returns (longer: seq<Step>)
    requires Run(start, steps) == s && !s.accepting && s.drain.NotDraining? && s.lock.Free?
    ensures Run(start, longer) == Draining(s)
  {
    var a := s.(service := Service.Draining, drain := Announced);
    var b := a.(closed := true, drain := Closed);
    longer := Then(start, steps, s, DrainNext, a);
    longer := Then(start, longer, a, DrainNext, b);
    longer := Then(start, longer, b, DrainNext, Draining(s));
  }

  // ---------------------------------------------------------------------------------------------
  // The states reached
  // ---------------------------------------------------------------------------------------------

  /** With one slot two rows are running: the first one's task failed and gave its permit back. */
  lemma RunningRowsExceedSlots() returns (steps: seq<Step>)
    ensures Initial(Empty(1))
    ensures var s := Run(Empty(1), steps); s.slots == 1 && {"x", "y"} <= RunningIds(s.rows) && |RunningIds(s.rows)| >= 2
  {
    EmptyIsInitial(1);
    var start := Empty(1);
    steps := ToAccepted(start, [], start, "x");
    steps := ToRunningFrom(start, steps, Accepted(start, "x"), "x");
    var s := Run(start, steps);
    steps := ToFailing(start, steps, s, "x");
    var failed := With(s, "x", Task(Failing, [SpawnCommand], true), Free, 1);
    steps := ToAccepted(start, steps, failed, "y");
    steps := ToRunningFrom(start, steps, Accepted(failed, "y"), "y");
    var t := Run(start, steps);
    assert {"x", "y"} <= RunningIds(t.rows) && |{"x", "y"}| == 2;
    SubsetSize({"x", "y"}, RunningIds(t.rows));
  }

  lemma ToFailing(start: System, steps: seq<Step>, s: System, id: Id) returns (longer: seq<Step>)
    requires Run(start, steps) == s && s.lock.Free?
    requires id in s.tasks && s.tasks[id] == Task(Reading, [SpawnCommand], true)
    ensures Run(start, longer) == With(s, id, Task(Failing, [SpawnCommand], true), Free, s.available + 1)
  {
    var t := With(s, id, Task(Failing, [SpawnCommand], true), Free, s.available + 1);
    TaskMoves(s, id, Fail, t.tasks[id], Free, s.available + 1);
    longer := Then(start, steps, s, TaskDoes(id, Fail), t);
  }

  lemma ToRunningFrom(start: System, steps: seq<Step>, s: System, id: Id) returns (longer: seq<Step>)
    requires Run(start, steps) == s && CanBegin(s, id)
    ensures var t := Run(start, longer);
      && t.tasks == s.tasks[id := Task(Reading, [SpawnCommand], true)] && t.rows == s.rows[id := Running]
      && t == s.(tasks := t.tasks, rows := t.rows, processes := s.processes + {id}, available := s.available - 1)
  {
    longer := ToChecked(start, steps, s, id);
    var a := Run(start, longer);
    longer := ToReading(start, longer, a, id);
    var b := Run(start, longer);
    assert b.tasks == s.tasks[id := Task(Reading, [SpawnCommand], true)];
    longer := ToRunning(start, longer, b, id);
  }

  /** A drain that the store fails leaves a registered supervisor untold until its started frame. */
  lemma SupervisorIsStranded() returns (steps: seq<Step>)
    ensures Initial(Empty(1)) && Stranded(ViewOf(Run(Empty(1), steps), "x"))
    ensures var a := Next(Run(Empty(1), steps), TaskDoes("x", Read(StartedFrame)));
      var t := Next(Next(a, TaskDoes("x", Advance)), TaskDoes("x", Advance));
      "x" in t.tasks && CancelCommand in t.tasks["x"].commands
  {
    EmptyIsInitial(1);
    var start := Empty(1);
    steps := ToAccepted(start, [], start, "x");
    steps := ToChecked(start, steps, Accepted(start, "x"), "x");
    var a := Run(start, steps);
    steps := ToReading(start, steps, a, "x");
    var b := Run(start, steps);
    steps := ToInside(start, steps, b);
    var s := Run(start, steps);
    assert RowOf(s.rows, "x") == Some(Queued) && s.tasks["x"] == Task(Reading, [SpawnCommand], true);
    FailedDrainStrandsSupervisors(start, steps, true, {"x"}, "x");
    steps := Then(start, steps, s, DrainQueued(true, {"x"}), Next(s, DrainQueued(true, {"x"})));
    RunIsOk(start, steps);
    StartedFrameTells(Run(start, steps), "x");
  }

  /** A drain with no handle to send to passes its critical section. */
  lemma ToDrained(start: System, steps: seq<Step>, s: System) returns (longer: seq<Step>)
    requires Run(start, steps) == s && s.drain.Inside? && s.processes == {}
    ensures Run(start, longer)
      == s.(rows := EndRows(s.rows, QueuedIds(s.rows)), lock := Free, drain := Drained, targets := [])
  {
    var a := s.(rows := EndRows(s.rows, QueuedIds(s.rows)), drain := QueuedCancelled);
    var none: seq<Id> := [];
    assert (set id | id in none) == {};
    longer := Then(start, steps, s, DrainQueued(false, {}), a);
    longer := Then(start, longer, a, DrainSnapshot(none), a.(drain := Sending, targets := none));
    longer := Then(start, longer, a.(drain := Sending, targets := none), DrainNext,
                   a.(drain := Drained, targets := none, lock := Free));
  }

  lemma Spawns(s: System, id: Id)
    requires id in s.tasks && s.tasks[id] == Task(Checked, [], true)
    ensures Next(s, TaskDoes(id, Advance)).tasks[id].commands == [SpawnCommand]
  {
  }

  /** Behind the drain's critical section a task that had checked its row starts its supervisor. */
  lemma SpawnsBehindTheDrain() returns (steps: seq<Step>)
    ensures Initial(Empty(1))
    ensures var s := Run(Empty(1), steps);
      && IsDrained(s.drain) && "x" in s.tasks && s.tasks["x"].commands == []
      && var t := Next(s, TaskDoes("x", Advance)); "x" in t.tasks && t.tasks["x"].commands == [SpawnCommand]
  {
    EmptyIsInitial(1);
    var start := Empty(1);
    steps := ToAccepted(start, [], start, "x");
    steps := ToChecked(start, steps, Accepted(start, "x"), "x");
    steps := ToInside(start, steps, Run(start, steps));
    steps := ToDrained(start, steps, Run(start, steps));
    Spawns(Run(start, steps), "x");
  }
}
