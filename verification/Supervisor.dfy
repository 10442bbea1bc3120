/** The select loop that owns one command's process group, and what follows it (src/supervisor.rs).
    The kernel decides when the leader exits, whether its group is still alive then, whether a signal
    is accepted, when the deadline fires and when the output pipes end. A pipe's reader stops at the
    end of its stream, when a read fails, or when nobody takes the events any more. */
module Supervisor {
  import opened Model

  datatype Signal = Term | Kill

  datatype Status = Code(code: int) | Died(signal: int)

  datatype Internal = Cancel | DaemonGone | CaptureFailed(reason: string)

  datatype Happening =
    | LeaderExits(status: Status, groupAlive: bool)
    | WaitFails
    | Message(message: Internal, delivered: bool)   // whether the kernel accepts a signal
    | ControlsClosed
    | DeadlineFires
    | StreamEnds(stream: OutputStream)              // a pipe reader stops
    | PipesJoined                                      // both readers are joined

  /** Why run() returns an error. */
  datatype Failure = WaitFailed | SignalRefused

  datatype Loop = Loop(
    cancelled: bool,
    daemonGone: bool,
    interruptedReason: Option<string>,
    killDeadline: bool,
    exited: Option<Status>,
    signals: seq<Signal>,         // the signals sent to the group, in order
    result: Option<Status>,       // the loop was left with this status
    failed: Option<Failure>,      // the loop was left with this error
    open: set<OutputStream>,      // pipes whose readers have not stopped
    concluded: bool,
    sent: Option<Outcome>)        // the final frame

  const INITIAL := Loop(false, false, None, false, None, [], None, None, {Stdout, Stderr}, false, None)

  /** The select loop is over. */
  predicate Left(s: Loop) {
    s.result.Some? || s.failed.Some?
  }

  predicate Enabled(s: Loop, h: Happening) {
    match h
    case LeaderExits(_, _) => !Left(s) && s.exited.None?
    case WaitFails => !Left(s) && s.exited.None?
    case Message(_, _) => !Left(s)
    case ControlsClosed => !Left(s)
    case DeadlineFires => !Left(s) && s.killDeadline
    case StreamEnds(_) => s.failed.None?
    case PipesJoined => s.result.Some? && s.open == {} && !s.concluded
  }

  function Terminated(s: Loop): Loop {
    if s.cancelled then s else s.(cancelled := true, signals := s.signals + [Term], killDeadline := true)
  }

  /** One turn of the loop, or a step behind it; one that is not enabled is not taken. */
  function Turn(s: Loop, h: Happening): Loop {
    if !Enabled(s, h) then s
    else match h
      case LeaderExits(status, groupAlive) =>
        if !s.killDeadline || !groupAlive then s.(result := Some(status)) else s.(exited := Some(status))
      case WaitFails => s.(failed := Some(WaitFailed))
      case Message(Cancel, delivered) =>
        if s.cancelled then s
        else if !delivered then s.(cancelled := true, signals := s.signals + [Term], failed := Some(SignalRefused))
        else Terminated(s)
      case Message(DaemonGone, _) =>
        Terminated(s.(daemonGone := true))
      case Message(CaptureFailed(reason), _) =>
        Terminated(s.(interruptedReason := Some(reason)))
      case ControlsClosed => s
      case DeadlineFires =>
        s.(signals := s.signals + [Kill], killDeadline := false, result := s.exited)
      case StreamEnds(stream) => s.(open := s.open - {stream})
      case PipesJoined => s.(concluded := true, sent := FinalOutcome(s))
  }

  function Turns(s: Loop, hs: seq<Happening>): Loop {
    if hs == [] then s else Turn(Turns(s, hs[..|hs| - 1]), hs[|hs| - 1])
  }

  /** The frame sent at the end, if the daemon is still there to read it. */
  function FinalOutcome(s: Loop): Option<Outcome>
    requires s.result.Some?
  {
    if s.daemonGone then None
    else if s.interruptedReason.Some? then Some(InterruptedBy(s.interruptedReason.value))
    else if s.cancelled then
      Some(CancelledBy(if s.result.value.Died? then Some(s.result.value.signal) else None))
    else match s.result.value
      case Code(code) => Some(Exited(code))
      case Died(signal) => Some(Signaled(signal))
  }

  // ---------------------------------------------------------------------------------------------
  // Escalation
  // ---------------------------------------------------------------------------------------------

  /** SIGTERM goes out once, when the loop is cancelled; SIGKILL at most once, after it, when the
      deadline armed together with it fires. Until the loop is left it always waits for something. */
  ghost predicate Escalates(s: Loop) {
    && s.signals == (if !s.cancelled then []
                     else if s.killDeadline || s.failed == Some(SignalRefused) then [Term]
                     else [Term, Kill])
    && (s.killDeadline ==> s.cancelled && s.failed != Some(SignalRefused))
    && (s.failed == Some(SignalRefused) ==> s.cancelled)
    && (s.daemonGone || s.interruptedReason.Some? ==> s.cancelled)
    && (s.exited.Some? && s.result.None? ==> s.killDeadline)
    && (s.failed.Some? ==> s.exited.None? && s.result.None?)
    && (s.sent.Some? ==> s.concluded) && (s.concluded ==> s.result.Some? && s.open == {})
  }

  lemma MessageEscalates(s: Loop, h: Happening)
    requires Escalates(s) && h.Message? && !Left(s)
    ensures Escalates(Turn(s, h))
  {
    if !s.cancelled { assert s.signals + [Term] == [Term]; }
  }

  lemma DeadlineEscalates(s: Loop)
    requires Escalates(s) && Enabled(s, DeadlineFires)
    ensures Escalates(Turn(s, DeadlineFires))
  {
    assert s.signals + [Kill] == [Term, Kill];
  }

  lemma QuietTurnEscalates(s: Loop, h: Happening)
    requires Escalates(s) && Enabled(s, h) && !h.Message? && !h.DeadlineFires?
    ensures Escalates(Turn(s, h))
  {
  }

  lemma TurnEscalates(s: Loop, h: Happening)
    requires Escalates(s)
    ensures Escalates(Turn(s, h))
  {
    if Enabled(s, h) {
      if h.Message? { MessageEscalates(s, h); }
      else if h.DeadlineFires? { DeadlineEscalates(s); }
      else { QuietTurnEscalates(s, h); }
    }
  }

  /** This turn leaves a cancelled loop although some of its group may live and no SIGKILL was sent. */
  ghost predicate LeavesUnsafely(s: Loop, h: Happening) {
    var t := Turn(s, h);
    !Left(s) && Left(t) && t.cancelled && Kill !in t.signals && !(h.LeaderExits? && !h.groupAlive)
  }

  /** In every reachable state, failed ones included; and a cancelled loop is left with its group
      gone or SIGKILL sent, except exactly when waiting for the leader fails before SIGKILL or the
      kernel refuses the SIGTERM of the first cancellation. */
  lemma {:induction false} EscalationInvariant(hs: seq<Happening>, h: Happening)
    ensures var s := Turns(INITIAL, hs);
      && Escalates(s)
      && (s.signals == [] || s.signals == [Term] || s.signals == [Term, Kill])
      && (Term in s.signals <==> s.cancelled)
      && (!Left(s) ==> s.exited.None? || s.killDeadline)
      && (LeavesUnsafely(s, h) <==>
            !Left(s) && ((h.WaitFails? && s.exited.None? && s.signals == [Term])
                         || (h == Message(Internal.Cancel, false) && !s.cancelled)))
    decreases |hs|
  {
    if hs != [] {
      EscalationInvariant(hs[..|hs| - 1], h);
      TurnEscalates(Turns(INITIAL, hs[..|hs| - 1]), hs[|hs| - 1]);
    }
  }

  lemma OneTurn(s: Loop, h: Happening)
    ensures Turns(s, [h]) == Turn(s, h)
  {
    assert [h][..0] == [];
  }

  lemma TurnsSnoc(s: Loop, hs: seq<Happening>, h: Happening)
    ensures Turns(s, hs + [h]) == Turn(Turns(s, hs), h)
  {
    assert (hs + [h])[..|hs|] == hs;
  }

  /** Both exceptions occur: an error ends the supervisor with its group unkilled. */
  lemma UnsafeExitsOccur()
    ensures var refused := Turns(INITIAL, [Message(Internal.Cancel, false)]);
      refused.failed == Some(SignalRefused) && refused.cancelled && refused.signals == [Term]
    ensures var unwaited := Turns(INITIAL, [Message(Internal.Cancel, true)] + [WaitFails]);
      unwaited.failed == Some(WaitFailed) && unwaited.cancelled && unwaited.signals == [Term]
  {
    OneTurn(INITIAL, Message(Internal.Cancel, false));
    OneTurn(INITIAL, Message(Internal.Cancel, true));
    TurnsSnoc(INITIAL, [Message(Internal.Cancel, true)], WaitFails);
  }

  /** How many more exits and deadlines a cancelled loop can go through. */
  function Rank(s: Loop): nat {
    (if s.killDeadline then 1 else 0) + (if s.exited.None? then 1 else 0)
  }

  predicate Counts(s: Loop, h: Happening) {
    Enabled(s, h) && (h.LeaderExits? || h.DeadlineFires?)
  }

  /** The exits and deadlines that are taken on the way. */
  function Taken(s: Loop, hs: seq<Happening>): nat {
    if hs == [] then 0
    else Taken(s, hs[..|hs| - 1]) + (if Counts(Turns(s, hs[..|hs| - 1]), hs[|hs| - 1]) then 1 else 0)
  }

  /** A cancelled loop is left after at most two of them, however many messages come in between. */
  lemma {:induction false} CancellationEnds(s: Loop, hs: seq<Happening>)
    requires Escalates(s) && s.cancelled && !Left(s)
    ensures var t := Turns(s, hs);
      && Escalates(t) && t.cancelled
      && (!Left(t) ==> Taken(s, hs) + Rank(t) == Rank(s) <= 2)
      && (Taken(s, hs) >= 2 ==> t.result.Some?)
    decreases |hs|
  {
    if hs != [] {
      var init, h := hs[..|hs| - 1], hs[|hs| - 1];
      CancellationEnds(s, init);
      TurnEscalates(Turns(s, init), h);
    }
  }

  /** A command is reported as exited or signaled exactly when the loop never signaled its group. */
  lemma OutcomeTellsOfSignals(hs: seq<Happening>)
    requires Turns(INITIAL, hs).result.Some?
    ensures var s := Turns(INITIAL, hs); var outcome := FinalOutcome(s);
      && (outcome.None? <==> s.daemonGone)
      && (outcome.Some? ==> (outcome.value.Exited? || outcome.value.Signaled? <==> s.signals == []))
      && (outcome.Some? ==> (outcome.value.InterruptedBy? <==> s.interruptedReason.Some?))
  {
    EscalationInvariant(hs, ControlsClosed);
  }

  // ---------------------------------------------------------------------------------------------
  // Behind the loop nobody listens
  // ---------------------------------------------------------------------------------------------

  /** Once the loop is left nothing cancels or signals the command any more: reports are not read
      while the supervisor waits for its output pipes to end. */
  lemma {:induction false} LeftIsDeaf(s: Loop, hs: seq<Happening>)
    requires Left(s)
    ensures var t := Turns(s, hs);
      Left(t) && t.signals == s.signals && t.cancelled == s.cancelled && t.result == s.result && t.failed == s.failed
      && t.daemonGone == s.daemonGone && t.interruptedReason == s.interruptedReason
    decreases |hs|
  {
    if hs != [] { LeftIsDeaf(s, hs[..|hs| - 1]); }
  }

  /** The leader has exited, or waiting for it has failed. */
  ghost predicate LeaderIsOver(hs: seq<Happening>) {
    exists i :: 0 <= i < |hs| && (hs[i].LeaderExits? || hs[i].WaitFails?)
  }

  /** As long as nothing cancelled it, the loop is left exactly by its leader, whether or not other
      members of the group live on. */
  lemma {:induction false} UncancelledLoopFollowsLeader(hs: seq<Happening>)
    requires !Turns(INITIAL, hs).cancelled
    ensures Left(Turns(INITIAL, hs)) <==> LeaderIsOver(hs)
    decreases |hs|
  {
    EscalationInvariant(hs, ControlsClosed);
    if hs != [] {
      var init := hs[..|hs| - 1];
      EscalationInvariant(init, ControlsClosed);
      UncancelledLoopFollowsLeader(init);
      if LeaderIsOver(init) {
        var i :| 0 <= i < |init| && (init[i].LeaderExits? || init[i].WaitFails?);
        assert hs[i] == init[i];
      }
      if LeaderIsOver(hs) && !LeaderIsOver(init) {
        var i :| 0 <= i < |hs| && (hs[i].LeaderExits? || hs[i].WaitFails?);
        assert i < |init| ==> init[i] == hs[i];
      }
    }
  }

  /** A cancel, the loss of the daemon or a failed capture cancels and signals a command that was not
      cancelled before exactly if its leader has not exited yet. */
  lemma ReportsStopUntilLeaderExits(hs: seq<Happening>, report: Internal, delivered: bool)
    requires !Turns(INITIAL, hs).cancelled
    ensures var t := Turn(Turns(INITIAL, hs), Message(report, delivered));
      && (t.cancelled <==> !LeaderIsOver(hs))
      && t.signals == if LeaderIsOver(hs) then [] else [Term]
  {
    EscalationInvariant(hs, ControlsClosed);
    UncancelledLoopFollowsLeader(hs);
  }

  lemma {:induction false} TurnsConcat(s: Loop, a: seq<Happening>, b: seq<Happening>)
    ensures Turns(s, a + b) == Turns(Turns(s, a), b)
    decreases |b|
  {
    if b == [] {
      assert a + b == a;
    } else {
      assert (a + b)[..|a + b| - 1] == a + b[..|b| - 1];
      TurnsConcat(s, a, b[..|b| - 1]);
    }
  }

  /** A command whose leader exits before anything cancels it leaves its background members alone
      for good, whatever is reported afterwards; it counts as exited or signaled, and only once
      every one of them has let go of the output pipes. */
  lemma BackgroundMembersSurvive(hs: seq<Happening>, status: Status, groupAlive: bool, more: seq<Happening>)
    requires !Turns(INITIAL, hs).cancelled && !LeaderIsOver(hs)
    ensures var t := Turns(INITIAL, hs + [LeaderExits(status, groupAlive)] + more);
      && t.result == Some(status) && t.signals == [] && !t.cancelled && !t.daemonGone
      && (t.concluded ==> t.open == {})
  {
    var exit := hs + [LeaderExits(status, groupAlive)];
    UncancelledLoopFollowsLeader(hs);
    EscalationInvariant(hs, ControlsClosed);
    TurnsSnoc(INITIAL, hs, LeaderExits(status, groupAlive));
    TurnsConcat(INITIAL, exit, more);
    EscalationInvariant(exit + more, ControlsClosed);
    EscalationInvariant(exit, ControlsClosed);
    LeftIsDeaf(Turns(INITIAL, exit), more);
  }

  /** For `sh -c 'sleep 1000 & exit 0'` neither a cancel nor the loss of the daemon has any effect,
      and with both pipes still held nothing is reported. */
  lemma SwallowedCancel()
    ensures var more := [Message(Internal.Cancel, true), Message(DaemonGone, true), PipesJoined];
      var t := Turns(INITIAL, [LeaderExits(Code(0), true)] + more);
      t.result == Some(Code(0)) && t.signals == [] && !t.cancelled && !t.concluded && t.open == {Stdout, Stderr}
  {
    var a := Turn(INITIAL, LeaderExits(Code(0), true));
    OneTurn(INITIAL, LeaderExits(Code(0), true));
    var more := [Message(Internal.Cancel, true), Message(DaemonGone, true), PipesJoined];
    TurnsConcat(INITIAL, [LeaderExits(Code(0), true)], more);
    assert more[..2][..1] == more[..1] && more[..1][..0] == [];
    assert Turns(a, more[..1]) == a && Turns(a, more[..2]) == a;
    assert Stdout in a.open;
    assert Turns(a, more) == a;
  }

  // ---------------------------------------------------------------------------------------------
  // The control pipe fails closed
  // ---------------------------------------------------------------------------------------------

  datatype Control = CancelCommand | SpawnCommand | Garbled

  /** What the reader of the control pipe reports, up to the end of the pipe. */
  method ReadControls(controls: seq<Control>) returns (reports: seq<Internal>)
    ensures reports == Reports(controls)
  {
    reports := [];
    var i := 0;
    while i < |controls|
      invariant i <= |controls|
      invariant Reports(controls) == reports + Reports(controls[i..])
    {
      assert controls[i..][0] == controls[i] && controls[i..][1..] == controls[i + 1..];
      if controls[i] != CancelCommand {
        return reports + [CaptureFailed("invalid supervisor control message")];
      }
      reports := reports + [Cancel];
      i := i + 1;
    }
    return reports + [DaemonGone];
  }

  function Reports(controls: seq<Control>): seq<Internal> {
    if controls == [] then [DaemonGone]
    else if controls[0] != CancelCommand then [CaptureFailed("invalid supervisor control message")]
    else [Cancel] + Reports(controls[1..])
  }

  /** However the control pipe ends, its reader's last report is one that cancels. */
  lemma {:induction false} ControlsFailClosed(controls: seq<Control>)
    ensures var reports := Reports(controls);
      && reports != []
      && (reports[|reports| - 1] == DaemonGone <==> forall i | 0 <= i < |controls| :: controls[i] == CancelCommand)
      && (reports[|reports| - 1] == DaemonGone || reports[|reports| - 1].CaptureFailed?)
      && forall i | 0 <= i < |reports| - 1 :: reports[i] == Cancel
    decreases |controls|
  {
    if controls != [] && controls[0] == CancelCommand {
      ControlsFailClosed(controls[1..]);
      assert forall i | 1 <= i < |controls| :: controls[i] == controls[1..][i - 1];
    }
  }

  /** So the end of the control pipe cancels a command that nothing cancelled before, exactly if its
      leader has not exited by then. */
  lemma LastReportStops(hs: seq<Happening>, controls: seq<Control>, delivered: bool)
    ensures var reports := Reports(controls); var s := Turns(INITIAL, hs);
      reports != [] &&
      var t := Turn(s, Message(reports[|reports| - 1], delivered));
      && (t.cancelled <==> s.cancelled || !LeaderIsOver(hs))
      && (Term in t.signals <==> t.cancelled)
  {
    ControlsFailClosed(controls);
    var reports := Reports(controls);
    EscalationInvariant(hs, ControlsClosed);
    TurnEscalates(Turns(INITIAL, hs), Message(reports[|reports| - 1], delivered));
    if !Turns(INITIAL, hs).cancelled {
      ReportsStopUntilLeaderExits(hs, reports[|reports| - 1], delivered);
    }
  }

  // ---------------------------------------------------------------------------------------------
  // The loop itself
  // ---------------------------------------------------------------------------------------------

  class SupervisorLoop {
    var cancelled: bool
    var daemonGone: bool
    var interruptedReason: Option<string>
    var killDeadline: bool
    var exited: Option<Status>
    var signals: seq<Signal>
    var result: Option<Status>
    var failed: Option<Failure>
    var open: set<OutputStream>
    var concluded: bool
    var sent: Option<Outcome>

    function View(): Loop
      reads this
    {
      Loop(cancelled, daemonGone, interruptedReason, killDeadline, exited, signals, result, failed,
           open, concluded, sent)
    }

    constructor ()
      ensures View() == INITIAL
    {
      cancelled, daemonGone, interruptedReason, killDeadline := false, false, None, false;
      exited, signals, result, failed := None, [], None, None;
      open, concluded, sent := {Stdout, Stderr}, false, None;
    }

    method Terminate()
      modifies this
      ensures View() == Terminated(old(View()))
    {
      if !cancelled {
        cancelled := true;
        signals := signals + [Term];
        killDeadline := true;
      }
    }

    method Select(h: Happening)
      requires Enabled(View(), h)
      modifies this
      ensures View() == Turn(old(View()), h)
    {
      match h {
        case LeaderExits(status, groupAlive) =>
          if !killDeadline || !groupAlive {
            result := Some(status);
          } else {
            exited := Some(status);
          }
        case WaitFails =>
          failed := Some(WaitFailed);
        case Message(Cancel, delivered) =>
          if !cancelled {
            if delivered {
              Terminate();
            } else {
              cancelled := true;
              signals := signals + [Term];
              failed := Some(SignalRefused);
            }
          }
        case Message(DaemonGone, _) =>
          daemonGone := true;
          Terminate();
        case Message(CaptureFailed(reason), _) =>
          interruptedReason := Some(reason);
          Terminate();
        case ControlsClosed =>
        case DeadlineFires =>
          signals := signals + [Kill];
          killDeadline := false;
          result := exited;
        case StreamEnds(stream) =>
          open := open - {stream};
        case PipesJoined =>
          sent := FinalOutcome(View());
          concluded := true;
      }
    }

    /** Takes what happens in turn: first in the select loop, until that is left, then behind it. */
    method Run(hs: seq<Happening>)
      requires View() == INITIAL
      modifies this
      ensures View() == Turns(INITIAL, hs) && Escalates(View())
    {
      var taken := 0;
      EscalationInvariant([], ControlsClosed);
      while taken < |hs|
        invariant taken <= |hs| && View() == Turns(INITIAL, hs[..taken]) && Escalates(View())
      {
        assert hs[..taken + 1][..taken] == hs[..taken];
        TurnEscalates(View(), hs[taken]);
        if Enabled(View(), hs[taken]) {
          Select(hs[taken]);
        }
        taken := taken + 1;
      }
      assert hs[..taken] == hs;
    }
  }
}
