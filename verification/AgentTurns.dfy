/** The turns and tool actions that agents report, and the sessions they belong to (src/store.rs).
    One SQL statement is one assignment; clock readings and generated ids are parameters. */
module AgentTurns {
  import opened Model

  datatype SessionState = Recording | SessionFinished | SessionInterrupted

  datatype Session = Session(
    workspace: Id,
    state: SessionState,
    outcome: Option<Outcome>,
    endedAt: Option<int>,
    capturedBytes: nat,
    outputTruncated: bool)

  /** A provider's session within a recorded session. */
  datatype Key = Key(session: Id, provider: string, providerSession: string)

  datatype TurnState = Active | TurnCompleted | TurnFailed | TurnInterrupted

  datatype Turn = Turn(
    id: Id,
    key: Key,
    providerTurn: Option<string>,
    state: TurnState,
    prompt: string,
    createdAt: int,
    endedAt: Option<int>,
    lastMessage: Option<string>)

  datatype ActionState = ActionRunning | ActionCompleted | ActionFailed

  datatype Action = Action(
    id: Id,
    turn: Id,
    providerAction: string,
    toolName: string,
    state: ActionState,
    execution: Option<Id>,
    createdAt: int,
    endedAt: Option<int>)

  datatype AgentEvent =
    | PromptSubmitted(prompt: string)
    | ToolStarted(actionId: string, toolName: string)
    | ToolFinished(actionId: string, toolName: string, failed: bool, execution: Option<Id>)
    | TurnFinished(failed: bool, lastMessage: Option<string>)

  datatype Request = Request(key: Key, providerTurn: Option<string>, event: AgentEvent)

  datatype SessionFinish = SessionFinish(
    state: SessionState, outcome: Outcome, capturedBytes: nat, outputTruncated: bool)

  datatype Tables = Tables(
    sessions: map<Id, Session>,
    turns: seq<Turn>,
    actions: seq<Action>,
    executions: map<Id, Execution>)

  // ---------------------------------------------------------------------------------------------
  // Requests
  // ---------------------------------------------------------------------------------------------

  predicate IsSpace(c: char) {
    c == ' ' || c == '\t' || c == '\n' || c == '\r'
  }

  predicate Blank(s: string) {
    forall i | 0 <= i < |s| :: IsSpace(s[i])
  }

  predicate WellFormed(request: Request) {
    && !Blank(request.key.session) && !Blank(request.key.provider) && !Blank(request.key.providerSession)
    && (request.providerTurn.Some? ==> !Blank(request.providerTurn.value))
    && match request.event
       case PromptSubmitted(prompt) => prompt != ""
       case ToolStarted(actionId, toolName) => !Blank(actionId) && !Blank(toolName)
       case ToolFinished(actionId, toolName, _, _) => !Blank(actionId) && !Blank(toolName)
       case TurnFinished(_, _) => true
  }

  // ---------------------------------------------------------------------------------------------
  // Turns
  // ---------------------------------------------------------------------------------------------

  /** A turn that a new prompt of its provider session puts an end to. */
  predicate Displaced(turn: Turn, key: Key, providerTurn: Option<string>) {
    && turn.key == key && turn.state == Active
    && (providerTurn.None? || turn.providerTurn.None? || turn.providerTurn != providerTurn)
  }

  function Interrupt(turn: Turn, now: int): Turn {
    turn.(state := TurnInterrupted, endedAt := Some(now))
  }

  function Displace(turns: seq<Turn>, key: Key, providerTurn: Option<string>, now: int): (after: seq<Turn>)
    ensures |after| == |turns|
  {
    seq(|turns|, i requires 0 <= i < |turns| =>
      if Displaced(turns[i], key, providerTurn) then Interrupt(turns[i], now) else turns[i])
  }

  function InterruptSession(turns: seq<Turn>, session: Id, now: int): (after: seq<Turn>)
    ensures |after| == |turns|
  {
    seq(|turns|, i requires 0 <= i < |turns| =>
      if turns[i].key.session == session && turns[i].state == Active then Interrupt(turns[i], now) else turns[i])
  }

  function FindProviderTurn(turns: seq<Turn>, key: Key, providerTurn: Option<string>): (found: Option<nat>)
    ensures found.Some? ==>
      found.value < |turns| && providerTurn.Some?
      && turns[found.value].key == key && turns[found.value].providerTurn == providerTurn
    ensures found.None? && providerTurn.Some? ==>
      forall i | 0 <= i < |turns| :: turns[i].key == key ==> turns[i].providerTurn != providerTurn
  {
    if turns == [] || providerTurn.None? then None
    else
      var last := turns[|turns| - 1];
      if last.key == key && last.providerTurn == providerTurn then Some(|turns| - 1)
      else FindProviderTurn(turns[..|turns| - 1], key, providerTurn)
  }

  /** The most recently created active turn of a provider session. */
  function FindActiveTurn(turns: seq<Turn>, key: Key): (found: Option<nat>)
    ensures found.Some? ==>
      found.value < |turns| && turns[found.value].key == key && turns[found.value].state == Active
    ensures forall i | 0 <= i < |turns| && turns[i].key == key && turns[i].state == Active ::
      found.Some? && turns[i].createdAt <= turns[found.value].createdAt
  {
    if turns == [] then None
    else
      var k := |turns| - 1;
      var best := FindActiveTurn(turns[..k], key);
      if turns[k].key == key && turns[k].state == Active
         && (best.None? || turns[best.value].createdAt <= turns[k].createdAt)
      then Some(k) else best
  }

  function FreshTurn(request: Request, id: Id, prompt: string, now: int): Turn {
    Turn(id, request.key, request.providerTurn, Active, prompt, now, None, None)
  }

  /** The turn an event belongs to; it is started if there is none. */
  function FindOrCreate(turns: seq<Turn>, request: Request, id: Id, now: int): (r: (seq<Turn>, nat))
    ensures r.1 < |r.0|
  {
    var found :=
      if request.providerTurn.Some? then FindProviderTurn(turns, request.key, request.providerTurn)
      else FindActiveTurn(turns, request.key);
    if found.Some? then (turns, found.value) else (turns + [FreshTurn(request, id, "", now)], |turns|)
  }

  function Reopened(turn: Turn, prompt: string): Turn {
    turn.(state := Active, prompt := prompt, endedAt := None, lastMessage := None)
  }

  function Prompted(turns: seq<Turn>, request: Request, prompt: string, id: Id, now: int): (r: (seq<Turn>, nat))
    ensures r.1 < |r.0|
  {
    var rest := Displace(turns, request.key, request.providerTurn, now);
    var found := FindProviderTurn(rest, request.key, request.providerTurn);
    if found.Some? then (rest[found.value := Reopened(rest[found.value], prompt)], found.value)
    else (rest + [FreshTurn(request, id, prompt, now)], |rest|)
  }

  function Concluded(turn: Turn, failed: bool, message: Option<string>, now: int): Turn {
    turn.(state := if failed then TurnFailed else TurnCompleted, endedAt := Some(now), lastMessage := message)
  }

  /** The turns after an event, and which of them it belongs to. */
  function TurnsAfter(turns: seq<Turn>, request: Request, id: Id, now: int): (r: (seq<Turn>, nat))
    ensures r.1 < |r.0|
  {
    match request.event
    case PromptSubmitted(prompt) => Prompted(turns, request, prompt, id, now)
    case TurnFinished(failed, message) =>
      var (after, k) := FindOrCreate(turns, request, id, now);
      (after[k := Concluded(after[k], failed, message, now)], k)
    case _ => FindOrCreate(turns, request, id, now)
  }

  // ---------------------------------------------------------------------------------------------
  // What holds of the turns
  // ---------------------------------------------------------------------------------------------

  ghost predicate UniqueIds(turns: seq<Turn>) {
    forall i, j | 0 <= i < |turns| && 0 <= j < |turns| && turns[i].id == turns[j].id :: i == j
  }

  /** A provider's turn id names one turn of its provider session. */
  ghost predicate UniqueProviderTurns(turns: seq<Turn>) {
    forall i, j | 0 <= i < |turns| && 0 <= j < |turns| && turns[i].providerTurn.Some?
        && turns[i].key == turns[j].key && turns[i].providerTurn == turns[j].providerTurn :: i == j
  }

  ghost predicate EndedTurns(turns: seq<Turn>) {
    forall i | 0 <= i < |turns| :: turns[i].state == Active <==> turns[i].endedAt.None?
  }

  ghost predicate TurnsOk(turns: seq<Turn>) {
    UniqueIds(turns) && UniqueProviderTurns(turns) && EndedTurns(turns)
  }

  ghost predicate IsFresh(turns: seq<Turn>, id: Id) {
    forall i | 0 <= i < |turns| :: turns[i].id != id
  }

  /** Which turn is which does not change. */
  ghost predicate SameTurns(before: seq<Turn>, after: seq<Turn>) {
    |after| == |before|
    && forall i | 0 <= i < |before| ::
         after[i].id == before[i].id && after[i].key == before[i].key && after[i].providerTurn == before[i].providerTurn
  }

  lemma SameTurnsUnique(before: seq<Turn>, after: seq<Turn>)
    requires UniqueIds(before) && UniqueProviderTurns(before) && SameTurns(before, after)
    ensures UniqueIds(after) && UniqueProviderTurns(after)
  {
  }

  lemma FreshKeeps(turns: seq<Turn>, turn: Turn)
    requires TurnsOk(turns) && IsFresh(turns, turn.id) && turn.state == Active && turn.endedAt.None?
    requires turn.providerTurn.Some? ==> FindProviderTurn(turns, turn.key, turn.providerTurn).None?
    ensures TurnsOk(turns + [turn])
  {
  }

  lemma FindOrCreateKeeps(turns: seq<Turn>, request: Request, id: Id, now: int)
    requires TurnsOk(turns) && IsFresh(turns, id)
    ensures TurnsOk(FindOrCreate(turns, request, id, now).0)
  {
    if FindOrCreate(turns, request, id, now).0 != turns {
      FreshKeeps(turns, FreshTurn(request, id, "", now));
    }
  }

  lemma DisplaceKeeps(turns: seq<Turn>, key: Key, providerTurn: Option<string>, now: int)
    requires TurnsOk(turns)
    ensures TurnsOk(Displace(turns, key, providerTurn, now))
    ensures SameTurns(turns, Displace(turns, key, providerTurn, now))
  {
    SameTurnsUnique(turns, Displace(turns, key, providerTurn, now));
  }

  lemma PromptedKeeps(turns: seq<Turn>, request: Request, prompt: string, id: Id, now: int)
    requires TurnsOk(turns) && IsFresh(turns, id)
    ensures TurnsOk(Prompted(turns, request, prompt, id, now).0)
  {
    var rest := Displace(turns, request.key, request.providerTurn, now);
    DisplaceKeeps(turns, request.key, request.providerTurn, now);
    var after := Prompted(turns, request, prompt, id, now).0;
    if FindProviderTurn(rest, request.key, request.providerTurn).Some? {
      SameTurnsUnique(rest, after);
    } else {
      FreshKeeps(rest, FreshTurn(request, id, prompt, now));
    }
  }

  lemma TurnsAfterKeeps(turns: seq<Turn>, request: Request, id: Id, now: int)
    requires TurnsOk(turns) && IsFresh(turns, id)
    ensures TurnsOk(TurnsAfter(turns, request, id, now).0)
  {
    match request.event
    case PromptSubmitted(prompt) => PromptedKeeps(turns, request, prompt, id, now);
    case TurnFinished(failed, message) =>
      FindOrCreateKeeps(turns, request, id, now);
      SameTurnsUnique(FindOrCreate(turns, request, id, now).0, TurnsAfter(turns, request, id, now).0);
    case ToolStarted(_, _) => FindOrCreateKeeps(turns, request, id, now);
    case ToolFinished(_, _, _, _) => FindOrCreateKeeps(turns, request, id, now);
  }

  // ---------------------------------------------------------------------------------------------
  // Active turns
  // ---------------------------------------------------------------------------------------------

  predicate IsActive(turn: Turn, key: Key) {
    turn.key == key && turn.state == Active
  }

  ghost predicate AtMostOneActive(turns: seq<Turn>, key: Key) {
    forall i, j | 0 <= i < |turns| && 0 <= j < |turns| && IsActive(turns[i], key) && IsActive(turns[j], key) :: i == j
  }

  ghost predicate SomeActive(turns: seq<Turn>, key: Key) {
    exists i :: 0 <= i < |turns| && IsActive(turns[i], key)
  }

  /** An event changes no turn of another provider session and forgets none of its own. */
  lemma OtherSessionsUntouched(turns: seq<Turn>, request: Request, id: Id, now: int)
    ensures var after := TurnsAfter(turns, request, id, now).0;
      && |turns| <= |after| <= |turns| + 1
      && (forall i | 0 <= i < |turns| ::
            after[i].id == turns[i].id && after[i].key == turns[i].key
            && after[i].providerTurn == turns[i].providerTurn)
      && (forall i | 0 <= i < |turns| && turns[i].key != request.key :: after[i] == turns[i])
      && (forall i | |turns| <= i < |after| :: after[i].key == request.key && after[i].id == id)
  {
  }

  /** After a prompt, its turn is the only active one of the provider session, and has its text. */
  lemma PromptIsTheActiveTurn(turns: seq<Turn>, request: Request, prompt: string, id: Id, now: int)
    requires TurnsOk(turns)
    ensures var (after, k) := Prompted(turns, request, prompt, id, now);
      && after[k].prompt == prompt && after[k].providerTurn == request.providerTurn
      && forall i | 0 <= i < |after| :: IsActive(after[i], request.key) <==> i == k
  {
    DisplaceKeeps(turns, request.key, request.providerTurn, now);
  }

  ghost predicate NoTurnIds(turns: seq<Turn>, key: Key) {
    forall i | 0 <= i < |turns| && turns[i].key == key :: turns[i].providerTurn.None?
  }

  /** A provider session that never sends turn ids has at most one active turn. */
  lemma SilentSessionsStaySingle(turns: seq<Turn>, key: Key, request: Request, id: Id, now: int)
    requires TurnsOk(turns) && AtMostOneActive(turns, key) && NoTurnIds(turns, key)
    requires request.key == key ==> request.providerTurn.None?
    ensures var after := TurnsAfter(turns, request, id, now).0;
      AtMostOneActive(after, key) && NoTurnIds(after, key)
  {
    OtherSessionsUntouched(turns, request, id, now);
    if request.key == key {
      if request.event.PromptSubmitted? {
        PromptIsTheActiveTurn(turns, request, request.event.prompt, id, now);
      }
    }
  }

  /** A second active turn appears exactly when a tool reports under a turn id that is not known
      while another turn is active. */
  lemma SecondActiveTurn(turns: seq<Turn>, request: Request, id: Id, now: int)
    requires TurnsOk(turns) && AtMostOneActive(turns, request.key)
    ensures !AtMostOneActive(TurnsAfter(turns, request, id, now).0, request.key) <==>
      && (request.event.ToolStarted? || request.event.ToolFinished?)
      && request.providerTurn.Some? && FindProviderTurn(turns, request.key, request.providerTurn).None?
      && SomeActive(turns, request.key)
  {
    var (after, k) := TurnsAfter(turns, request, id, now);
    OtherSessionsUntouched(turns, request, id, now);
    if request.event.PromptSubmitted? {
      PromptIsTheActiveTurn(turns, request, request.event.prompt, id, now);
    } else if request.event.TurnFinished? {
      assert !IsActive(after[k], request.key);
    } else if |after| > |turns| && SomeActive(turns, request.key) {
      var i :| 0 <= i < |turns| && IsActive(turns[i], request.key);
      assert IsActive(after[i], request.key) && IsActive(after[k], request.key) && i != k;
    }
  }

  // ---------------------------------------------------------------------------------------------
  // Actions
  // ---------------------------------------------------------------------------------------------

  function FindAction(actions: seq<Action>, turn: Id, providerAction: string): (found: Option<nat>)
    ensures found.Some? ==>
      found.value < |actions| && actions[found.value].turn == turn
      && actions[found.value].providerAction == providerAction
    ensures found.None? ==>
      forall i | 0 <= i < |actions| :: actions[i].turn == turn ==> actions[i].providerAction != providerAction
  {
    if actions == [] then None
    else
      var last := actions[|actions| - 1];
      if last.turn == turn && last.providerAction == providerAction then Some(|actions| - 1)
      else FindAction(actions[..|actions| - 1], turn, providerAction)
  }

  /** An execution is only linked if it belongs to the session's workspace. */
  function Linked(executions: map<Id, Execution>, workspace: Id, execution: Option<Id>): Option<Id> {
    if execution.Some? && execution.value in executions && executions[execution.value].workspace == workspace
    then execution else None
  }

  function NewAction(id: Id, turn: Id, event: AgentEvent, linked: Option<Id>, now: int): Action
    requires event.ToolStarted? || event.ToolFinished?
  {
    if event.ToolStarted? then Action(id, turn, event.actionId, event.toolName, ActionRunning, None, now, None)
    else Action(id, turn, event.actionId, event.toolName, if event.failed then ActionFailed else ActionCompleted,
                linked, now, Some(now))
  }

  /** A repeated report updates the action; a link once made is not lost. */
  function Merged(action: Action, event: AgentEvent, linked: Option<Id>, now: int): Action
    requires event.ToolStarted? || event.ToolFinished?
  {
    if event.ToolStarted? then action.(toolName := event.toolName, state := ActionRunning, endedAt := None)
    else action.(toolName := event.toolName, state := if event.failed then ActionFailed else ActionCompleted,
                 execution := if linked.Some? then linked else action.execution, endedAt := Some(now))
  }

  function ActionsAfter(actions: seq<Action>, turn: Id, event: AgentEvent, linked: Option<Id>, id: Id, now: int)
    : seq<Action>
  {
    if event.PromptSubmitted? || event.TurnFinished? then actions
    else
      var found := FindAction(actions, turn, event.actionId);
      if found.Some? then actions[found.value := Merged(actions[found.value], event, linked, now)]
      else actions + [NewAction(id, turn, event, linked, now)]
  }

  // ---------------------------------------------------------------------------------------------
  // The tables
  // ---------------------------------------------------------------------------------------------

  predicate OfSession(turns: seq<Turn>, turn: Id, session: Id) {
    exists i | 0 <= i < |turns| :: turns[i].id == turn && turns[i].key.session == session
  }

  function WithoutSession(turns: seq<Turn>, session: Id): (rest: seq<Turn>)
    ensures forall t :: t in rest <==> t in turns && t.key.session != session
  {
    if turns == [] then []
    else
      var last, rest := turns[|turns| - 1], WithoutSession(turns[..|turns| - 1], session);
      assert forall t :: t in turns <==> t == last || t in turns[..|turns| - 1];
      if last.key.session == session then rest else rest + [last]
  }

  /** Deleting a turn deletes its actions. */
  function WithoutActions(actions: seq<Action>, turns: seq<Turn>, session: Id): (rest: seq<Action>)
    ensures forall a :: a in rest <==> a in actions && !OfSession(turns, a.turn, session)
  {
    if actions == [] then []
    else
      var last, rest := actions[|actions| - 1], WithoutActions(actions[..|actions| - 1], turns, session);
      assert forall a :: a in actions <==> a == last || a in actions[..|actions| - 1];
      if OfSession(turns, last.turn, session) then rest else rest + [last]
  }

  /** Deleting an execution leaves the actions that refer to it without a link. */
  function Unlinked(actions: seq<Action>, removed: set<Id>): seq<Action> {
    seq(|actions|, i requires 0 <= i < |actions| =>
      if actions[i].execution.Some? && actions[i].execution.value in removed
      then actions[i].(execution := None) else actions[i])
  }

  function Detached(executions: map<Id, Execution>, session: Id): map<Id, Execution> {
    map e | e in executions ::
      if executions[e].session == Some(session) then executions[e].(session := None) else executions[e]
  }

  datatype Command =
    | CreateSession(id: Id, workspace: Id)
    | FinishSession(id: Id, finish: SessionFinish, now: int)
    | RecordEvent(request: Request, now: int, turnId: Id, actionId: Id)
    | DeleteSession(id: Id)
    | CreateExecution(id: Id, workspace: Id, session: Option<Id>, initiatorKind: string, now: int)
    | PruneExecutions(removed: set<Id>)

  predicate Finishable(finish: SessionFinish) {
    !finish.state.Recording? && (finish.state.SessionInterrupted? <==> finish.outcome.InterruptedBy?)
  }

  predicate IsRecording(t: Tables, session: Id) {
    session in t.sessions && t.sessions[session].state.Recording?
  }

  /** A session an execution names must be recording, in the same workspace. */
  predicate MayJoin(t: Tables, workspace: Id, session: Option<Id>) {
    session.Some? ==> IsRecording(t, session.value) && t.sessions[session.value].workspace == workspace
  }

  function FinishedSession(session: Session, finish: SessionFinish, now: int): Session {
    session.(state := finish.state, endedAt := Some(now), outcome := Some(finish.outcome),
             capturedBytes := finish.capturedBytes, outputTruncated := finish.outputTruncated)
  }

  function LinkFor(t: Tables, request: Request): (linked: Option<Id>)
    requires IsRecording(t, request.key.session)
    ensures linked.Some? ==>
      linked.value in t.executions && t.executions[linked.value].workspace == t.sessions[request.key.session].workspace
  {
    if request.event.ToolFinished?
    then Linked(t.executions, t.sessions[request.key.session].workspace, request.event.execution) else None
  }

  function Record(t: Tables, request: Request, now: int, turnId: Id, actionId: Id): Tables
    requires IsRecording(t, request.key.session)
  {
    var (turns, k) := TurnsAfter(t.turns, request, turnId, now);
    var linked := LinkFor(t, request);
    t.(turns := turns, actions := ActionsAfter(t.actions, turns[k].id, request.event, linked, actionId, now))
  }

  /** A command that is answered with an error changes nothing. */
  function Apply(t: Tables, command: Command): Tables {
    match command
    case CreateSession(id, workspace) =>
      if id in t.sessions then t
      else t.(sessions := t.sessions[id := Session(workspace, Recording, None, None, 0, false)])
    case FinishSession(id, finish, now) =>
      if Finishable(finish) && IsRecording(t, id)
      then t.(sessions := t.sessions[id := FinishedSession(t.sessions[id], finish, now)],
              turns := InterruptSession(t.turns, id, now))
      else t
    case RecordEvent(request, now, turnId, actionId) =>
      if WellFormed(request) && IsRecording(t, request.key.session)
      then Record(t, request, now, turnId, actionId) else t
    case DeleteSession(id) =>
      if id in t.sessions && !t.sessions[id].state.Recording?
      then Tables(t.sessions - {id}, WithoutSession(t.turns, id), WithoutActions(t.actions, t.turns, id),
                  Detached(t.executions, id))
      else t
    case CreateExecution(id, workspace, session, kind, now) =>
      if id !in t.executions && MayJoin(t, workspace, session)
      then t.(executions := t.executions[
                id := Execution(workspace, session, kind, Queued, None, now, None, None, 0, false, 0)])
      else t
    case PruneExecutions(removed) =>
      t.(executions := t.executions - removed, actions := Unlinked(t.actions, removed))
  }

  function Run(t: Tables, commands: seq<Command>): Tables {
    if commands == [] then t else Apply(Run(t, commands[..|commands| - 1]), commands[|commands| - 1])
  }

  // ---------------------------------------------------------------------------------------------
  // What holds of the tables
  // ---------------------------------------------------------------------------------------------

  ghost predicate TurnInPlace(t: Tables, turn: Turn) {
    && turn.key.session in t.sessions
    && (turn.state == Active ==> t.sessions[turn.key.session].state.Recording?)
  }

  /** Turns belong to sessions, active ones to sessions that are still recording. */
  ghost predicate TurnsInPlace(t: Tables) {
    forall turn | turn in t.turns :: TurnInPlace(t, turn)
  }

  ghost predicate UniqueActions(actions: seq<Action>) {
    forall i, j | 0 <= i < |actions| && 0 <= j < |actions|
        && actions[i].turn == actions[j].turn && actions[i].providerAction == actions[j].providerAction :: i == j
  }

  ghost predicate LinkOk(t: Tables, turn: Turn, action: Action) {
    action.turn == turn.id && action.execution.Some? ==>
      && action.execution.value in t.executions && turn.key.session in t.sessions
      && t.executions[action.execution.value].workspace == t.sessions[turn.key.session].workspace
  }

  /** An action refers to executions of its session's workspace only. */
  ghost predicate LinksOk(t: Tables) {
    forall turn, action | turn in t.turns && action in t.actions :: LinkOk(t, turn, action)
  }

  ghost predicate MembersOk(t: Tables) {
    forall e | e in t.executions && t.executions[e].session.Some? ::
      t.executions[e].session.value in t.sessions
      && t.executions[e].workspace == t.sessions[t.executions[e].session.value].workspace
  }

  ghost predicate HasTurn(turns: seq<Turn>, id: Id) {
    exists i :: 0 <= i < |turns| && turns[i].id == id
  }

  ghost predicate ActionsInPlace(t: Tables) {
    forall action | action in t.actions :: HasTurn(t.turns, action.turn)
  }

  ghost predicate TablesOk(t: Tables) {
    && TurnsOk(t.turns) && TurnsInPlace(t)
    && UniqueActions(t.actions) && ActionsInPlace(t) && LinksOk(t)
    && MembersOk(t)
  }

  /** Generated ids are new. */
  ghost predicate IdsAreNew(t: Tables, command: Command) {
    command.RecordEvent? ==> IsFresh(t.turns, command.turnId)
  }

  lemma SameOwners(before: seq<Turn>, after: seq<Turn>, actions: seq<Action>)
    requires forall action | action in actions :: HasTurn(before, action.turn)
    requires |before| <= |after| && forall i | 0 <= i < |before| :: after[i].id == before[i].id
    ensures forall action | action in actions :: HasTurn(after, action.turn)
  {
    forall action | action in actions
      ensures HasTurn(after, action.turn)
    {
      var i :| 0 <= i < |before| && before[i].id == action.turn;
      assert after[i].id == action.turn;
    }
  }

  /** The same sessions, or only ended ones, and every turn as it was or ended. */
  lemma LinksStay(t: Tables, u: Tables)
    requires LinksOk(t) && u.actions == t.actions && u.executions == t.executions && |u.turns| == |t.turns|
    requires forall i | 0 <= i < |t.turns| :: u.turns[i].id == t.turns[i].id && u.turns[i].key == t.turns[i].key
    requires forall id | id in t.sessions :: id in u.sessions && u.sessions[id].workspace == t.sessions[id].workspace
    ensures LinksOk(u)
  {
    forall turn, action | turn in u.turns && action in u.actions
      ensures LinkOk(u, turn, action)
    {
      var i :| 0 <= i < |u.turns| && u.turns[i] == turn;
      assert LinkOk(t, t.turns[i], action);
    }
  }

  lemma FinishedTurnsInPlace(t: Tables, id: Id, finish: SessionFinish, now: int)
    requires TurnsInPlace(t) && Finishable(finish) && IsRecording(t, id)
    ensures TurnsInPlace(Apply(t, FinishSession(id, finish, now)))
  {
    var u := Apply(t, FinishSession(id, finish, now));
    forall turn | turn in u.turns
      ensures TurnInPlace(u, turn)
    {
      var i :| 0 <= i < |u.turns| && u.turns[i] == turn;
      assert TurnInPlace(t, t.turns[i]);
    }
  }

  lemma FinishKeeps(t: Tables, id: Id, finish: SessionFinish, now: int)
    requires TablesOk(t) && Finishable(finish) && IsRecording(t, id)
    ensures TablesOk(Apply(t, FinishSession(id, finish, now)))
  {
    var u := Apply(t, FinishSession(id, finish, now));
    SameTurnsUnique(t.turns, u.turns);
    FinishedTurnsInPlace(t, id, finish, now);
    LinksStay(t, u);
    SameOwners(t.turns, u.turns, t.actions);
  }

  lemma ActionsAfterUnique(actions: seq<Action>, turn: Id, event: AgentEvent, linked: Option<Id>, id: Id, now: int)
    requires UniqueActions(actions)
    ensures UniqueActions(ActionsAfter(actions, turn, event, linked, id, now))
  {
  }

  /** Where the execution of an action comes from. */
  ghost predicate Traced(actions: seq<Action>, turn: Id, linked: Option<Id>, action: Action) {
    || action in actions
    || (action.turn == turn
        && (|| action.execution.None? || action.execution == linked
            || exists a :: a in actions && a.turn == turn && a.execution == action.execution))
  }

  lemma ActionsAfterTraced(actions: seq<Action>, turn: Id, event: AgentEvent, linked: Option<Id>, id: Id, now: int)
    ensures forall action | action in ActionsAfter(actions, turn, event, linked, id, now) ::
      Traced(actions, turn, linked, action)
  {
    var after := ActionsAfter(actions, turn, event, linked, id, now);
    forall action | action in after
      ensures Traced(actions, turn, linked, action)
    {
      var i :| 0 <= i < |after| && after[i] == action;
      if i < |actions| {
        assert actions[i] in actions;
        assert action != actions[i] ==> action.turn == turn == actions[i].turn;
      }
    }
  }

  lemma EventTurn(turns: seq<Turn>, request: Request, id: Id, now: int)
    ensures var (after, k) := TurnsAfter(turns, request, id, now); after[k].key == request.key
  {
  }

  lemma RecordedTurnsInPlace(t: Tables, request: Request, id: Id, now: int)
    requires TurnsInPlace(t) && IsRecording(t, request.key.session)
    ensures TurnsInPlace(t.(turns := TurnsAfter(t.turns, request, id, now).0))
  {
    var u := t.(turns := TurnsAfter(t.turns, request, id, now).0);
    OtherSessionsUntouched(t.turns, request, id, now);
    forall turn | turn in u.turns
      ensures TurnInPlace(u, turn)
    {
      var i :| 0 <= i < |u.turns| && u.turns[i] == turn;
      if i < |t.turns| { assert TurnInPlace(t, t.turns[i]); }
    }
  }

  lemma RecordedLink(t: Tables, u: Tables, request: Request, k: nat, linked: Option<Id>, i: nat, action: Action)
    requires TablesOk(t) && IsRecording(t, request.key.session) && UniqueIds(u.turns)
    requires u.sessions == t.sessions && u.executions == t.executions
    requires |t.turns| <= |u.turns| && k < |u.turns| && i < |u.turns| && u.turns[k].key == request.key
    requires forall j | 0 <= j < |t.turns| :: u.turns[j].id == t.turns[j].id && u.turns[j].key == t.turns[j].key
    requires Traced(t.actions, u.turns[k].id, linked, action)
    requires linked.Some? ==>
      linked.value in t.executions && t.executions[linked.value].workspace == t.sessions[request.key.session].workspace
    ensures LinkOk(u, u.turns[i], action)
  {
    if action.turn == u.turns[i].id && action.execution.Some? {
      if action in t.actions {
        OwnerIsOld(t, u, i, action);
        assert LinkOk(t, t.turns[i], action);
      } else {
        assert i == k;
        if action.execution != linked {
          var a :| a in t.actions && a.turn == u.turns[k].id && a.execution == action.execution;
          OwnerIsOld(t, u, k, a);
          assert LinkOk(t, t.turns[k], a);
        }
      }
    }
  }

  /** An action that was there before belongs to a turn that was there before. */
  lemma OwnerIsOld(t: Tables, u: Tables, i: nat, action: Action)
    requires ActionsInPlace(t) && action in t.actions && UniqueIds(u.turns)
    requires |t.turns| <= |u.turns| && i < |u.turns| && action.turn == u.turns[i].id
    requires forall j | 0 <= j < |t.turns| :: u.turns[j].id == t.turns[j].id
    ensures i < |t.turns|
  {
    assert HasTurn(t.turns, action.turn);
    var j :| 0 <= j < |t.turns| && t.turns[j].id == action.turn;
    assert u.turns[j].id == u.turns[i].id;
  }

  lemma RecordedLinks(t: Tables, request: Request, now: int, turnId: Id, actionId: Id)
    requires TablesOk(t) && IsRecording(t, request.key.session) && IsFresh(t.turns, turnId)
    ensures LinksOk(Record(t, request, now, turnId, actionId))
  {
    var u := Record(t, request, now, turnId, actionId);
    var (turns, k) := TurnsAfter(t.turns, request, turnId, now);
    var linked := LinkFor(t, request);
    TurnsAfterKeeps(t.turns, request, turnId, now);
    OtherSessionsUntouched(t.turns, request, turnId, now);
    EventTurn(t.turns, request, turnId, now);
    ActionsAfterTraced(t.actions, turns[k].id, request.event, linked, actionId, now);
    forall turn, action | turn in u.turns && action in u.actions
      ensures LinkOk(u, turn, action)
    {
      var i :| 0 <= i < |u.turns| && u.turns[i] == turn;
      RecordedLink(t, u, request, k, linked, i, action);
    }
  }

  lemma RecordedOwners(t: Tables, request: Request, now: int, turnId: Id, actionId: Id)
    requires TablesOk(t) && IsRecording(t, request.key.session) && IsFresh(t.turns, turnId)
    ensures ActionsInPlace(Record(t, request, now, turnId, actionId))
  {
    var u := Record(t, request, now, turnId, actionId);
    var (turns, k) := TurnsAfter(t.turns, request, turnId, now);
    var linked := LinkFor(t, request);
    OtherSessionsUntouched(t.turns, request, turnId, now);
    SameOwners(t.turns, turns, t.actions);
    ActionsAfterTraced(t.actions, turns[k].id, request.event, linked, actionId, now);
    forall action | action in u.actions
      ensures HasTurn(u.turns, action.turn)
    {
      assert Traced(t.actions, turns[k].id, linked, action);
    }
  }

  lemma RecordKeeps(t: Tables, request: Request, now: int, turnId: Id, actionId: Id)
    requires TablesOk(t) && IsRecording(t, request.key.session) && IsFresh(t.turns, turnId)
    ensures TablesOk(Record(t, request, now, turnId, actionId))
  {
    var u := Record(t, request, now, turnId, actionId);
    var (turns, k) := TurnsAfter(t.turns, request, turnId, now);
    TurnsAfterKeeps(t.turns, request, turnId, now);
    RecordedTurnsInPlace(t, request, turnId, now);
    RecordedLinks(t, request, now, turnId, actionId);
    RecordedOwners(t, request, now, turnId, actionId);
    var linked := LinkFor(t, request);
    ActionsAfterUnique(t.actions, turns[k].id, request.event, linked, actionId, now);
    assert forall turn | turn in u.turns :: TurnInPlace(t.(turns := turns), turn) ==> TurnInPlace(u, turn);
  }

  ghost predicate Apart(rest: seq<Turn>, turn: Turn) {
    forall i | 0 <= i < |rest| ::
      rest[i].id != turn.id
      && (rest[i].key == turn.key && turn.providerTurn.Some? ==> rest[i].providerTurn != turn.providerTurn)
  }

  lemma AddingKeeps(rest: seq<Turn>, turn: Turn)
    requires TurnsOk(rest) && Apart(rest, turn) && (turn.state == Active <==> turn.endedAt.None?)
    ensures TurnsOk(rest + [turn])
  {
  }

  lemma LastIsApart(turns: seq<Turn>, rest: seq<Turn>)
    requires turns != [] && TurnsOk(turns) && forall t | t in rest :: t in turns[..|turns| - 1]
    ensures Apart(rest, turns[|turns| - 1])
  {
    forall i | 0 <= i < |rest|
      ensures exists j :: 0 <= j < |turns| - 1 && turns[j] == rest[i]
    {
      assert rest[i] in rest;
      assert rest[i] in turns[..|turns| - 1];
    }
  }

  lemma {:induction false} WithoutSessionKeeps(turns: seq<Turn>, session: Id)
    requires TurnsOk(turns)
    ensures TurnsOk(WithoutSession(turns, session))
    decreases |turns|
  {
    if turns != [] {
      var init, last := turns[..|turns| - 1], turns[|turns| - 1];
      WithoutSessionKeeps(init, session);
      if last.key.session != session {
        LastIsApart(turns, WithoutSession(init, session));
        AddingKeeps(WithoutSession(init, session), last);
      }
    }
  }

  lemma {:induction false} WithoutActionsUnique(actions: seq<Action>, turns: seq<Turn>, session: Id)
    requires UniqueActions(actions)
    ensures UniqueActions(WithoutActions(actions, turns, session))
    decreases |actions|
  {
    if actions != [] {
      var init, last := actions[..|actions| - 1], actions[|actions| - 1];
      WithoutActionsUnique(init, turns, session);
      var rest := WithoutActions(init, turns, session);
      forall i | 0 <= i < |rest|
        ensures !(rest[i].turn == last.turn && rest[i].providerAction == last.providerAction)
      {
        assert rest[i] in init;
        var j :| 0 <= j < |init| && init[j] == rest[i];
        assert actions[j] == rest[i];
      }
    }
  }

  /** An action that is kept belongs to a turn that is kept. */
  lemma KeptOwner(turns: seq<Turn>, session: Id, action: Action)
    requires HasTurn(turns, action.turn) && !OfSession(turns, action.turn, session)
    ensures HasTurn(WithoutSession(turns, session), action.turn)
  {
    var i :| 0 <= i < |turns| && turns[i].id == action.turn;
    assert turns[i] in WithoutSession(turns, session);
    var rest := WithoutSession(turns, session);
    var j :| 0 <= j < |rest| && rest[j] == turns[i];
  }

  lemma DeletedLinks(t: Tables, id: Id)
    requires TurnsInPlace(t) && LinksOk(t) && id in t.sessions && !t.sessions[id].state.Recording?
    ensures LinksOk(Apply(t, DeleteSession(id))) && TurnsInPlace(Apply(t, DeleteSession(id)))
  {
    var u := Apply(t, DeleteSession(id));
    forall turn, action | turn in u.turns && action in u.actions
      ensures LinkOk(u, turn, action)
    {
      assert LinkOk(t, turn, action);
    }
    forall turn | turn in u.turns
      ensures TurnInPlace(u, turn)
    {
      assert TurnInPlace(t, turn);
    }
  }

  lemma DeleteKeeps(t: Tables, id: Id)
    requires TablesOk(t) && id in t.sessions && !t.sessions[id].state.Recording?
    ensures TablesOk(Apply(t, DeleteSession(id)))
  {
    var u := Apply(t, DeleteSession(id));
    WithoutSessionKeeps(t.turns, id);
    WithoutActionsUnique(t.actions, t.turns, id);
    DeletedLinks(t, id);
    forall action | action in u.actions
      ensures HasTurn(u.turns, action.turn)
    {
      KeptOwner(t.turns, id, action);
    }
    assert MembersOk(u);
  }

  lemma PruneKeeps(t: Tables, removed: set<Id>)
    requires TablesOk(t)
    ensures TablesOk(Apply(t, PruneExecutions(removed)))
  {
    var u := Apply(t, PruneExecutions(removed));
    forall action | action in u.actions
      ensures HasTurn(u.turns, action.turn)
      ensures forall turn | turn in u.turns :: LinkOk(u, turn, action)
    {
      var i :| 0 <= i < |u.actions| && u.actions[i] == action;
      assert t.actions[i] in t.actions;
      forall turn | turn in u.turns
        ensures LinkOk(u, turn, action)
      {
        assert LinkOk(t, turn, t.actions[i]);
      }
    }
    assert forall turn | turn in u.turns :: TurnInPlace(t, turn);
  }

  lemma CreateExecutionKeeps(t: Tables, command: Command)
    requires TablesOk(t) && command.CreateExecution?
    ensures TablesOk(Apply(t, command))
  {
    var u := Apply(t, command);
    assert forall turn | turn in u.turns :: TurnInPlace(t, turn);
    forall turn, action | turn in u.turns && action in u.actions
      ensures LinkOk(u, turn, action)
    {
      assert LinkOk(t, turn, action);
    }
  }

  lemma CreateSessionKeeps(t: Tables, id: Id, workspace: Id)
    requires TablesOk(t)
    ensures TablesOk(Apply(t, CreateSession(id, workspace)))
  {
    var u := Apply(t, CreateSession(id, workspace));
    assert forall turn | turn in u.turns :: TurnInPlace(t, turn);
    LinksStay(t, u);
  }

  lemma ApplyKeeps(t: Tables, command: Command)
    requires TablesOk(t) && IdsAreNew(t, command)
    ensures TablesOk(Apply(t, command))
  {
    match command
    case CreateSession(id, workspace) => CreateSessionKeeps(t, id, workspace);
    case FinishSession(id, finish, now) =>
      if Finishable(finish) && IsRecording(t, id) { FinishKeeps(t, id, finish, now); }
    case RecordEvent(request, now, turnId, actionId) =>
      if WellFormed(request) && IsRecording(t, request.key.session) { RecordKeeps(t, request, now, turnId, actionId); }
    case DeleteSession(id) => if id in t.sessions && !t.sessions[id].state.Recording? { DeleteKeeps(t, id); }
    case CreateExecution(_, _, _, _, _) => CreateExecutionKeeps(t, command);
    case PruneExecutions(removed) => PruneKeeps(t, removed);
  }

  const EMPTY: Tables := Tables(map[], [], [], map[])

  ghost predicate AllIdsAreNew(commands: seq<Command>) {
    forall i | 0 <= i < |commands| :: IdsAreNew(Run(EMPTY, commands[..i]), commands[i])
  }

  lemma EarlierIdsAreNew(commands: seq<Command>)
    requires AllIdsAreNew(commands) && commands != []
    ensures AllIdsAreNew(commands[..|commands| - 1])
  {
    assert forall i | 0 <= i < |commands| - 1 :: commands[..|commands| - 1][..i] == commands[..i];
  }

  /** The tables are consistent after every run of commands. */
  lemma {:induction false} TablesInvariant(commands: seq<Command>)
    requires AllIdsAreNew(commands)
    ensures TablesOk(Run(EMPTY, commands))
    decreases |commands|
  {
    if commands != [] {
      var n := |commands| - 1;
      EarlierIdsAreNew(commands);
      TablesInvariant(commands[..n]);
      ApplyKeeps(Run(EMPTY, commands[..n]), commands[n]);
    }
  }

  // ---------------------------------------------------------------------------------------------
  // Main results
  // ---------------------------------------------------------------------------------------------

  /** A session that has ended has no active turn. */
  lemma EndedSessionsAreQuiet(commands: seq<Command>, turn: Turn)
    requires AllIdsAreNew(commands) && turn in Run(EMPTY, commands).turns
    ensures var t := Run(EMPTY, commands);
      turn.key.session in t.sessions
      && (!t.sessions[turn.key.session].state.Recording? ==> turn.state != Active && turn.endedAt.Some?)
  {
    TablesInvariant(commands);
    assert TurnInPlace(Run(EMPTY, commands), turn);
    var turns := Run(EMPTY, commands).turns;
    var i :| 0 <= i < |turns| && turns[i] == turn;
    assert turns[i].state == Active <==> turns[i].endedAt.None?;
  }

  /** The executions shown with a session: those started in it and those its actions refer to. */
  function DetailExecutions(t: Tables, session: Id): set<Id> {
    set e | e in t.executions
      && (t.executions[e].session == Some(session)
          || exists a | 0 <= a < |t.actions| ::
               t.actions[a].execution == Some(e) && OfSession(t.turns, t.actions[a].turn, session))
  }

  /** They all belong to the session's workspace. */
  lemma DetailStaysInWorkspace(commands: seq<Command>, session: Id, e: Id)
    requires AllIdsAreNew(commands)
    requires var t := Run(EMPTY, commands); session in t.sessions && e in DetailExecutions(t, session)
    ensures var t := Run(EMPTY, commands);
      e in t.executions && t.executions[e].workspace == t.sessions[session].workspace
  {
    TablesInvariant(commands);
    DetailInWorkspace(Run(EMPTY, commands), session, e);
  }

  lemma DetailInWorkspace(t: Tables, session: Id, e: Id)
    requires LinksOk(t) && MembersOk(t) && session in t.sessions && e in DetailExecutions(t, session)
    ensures t.executions[e].workspace == t.sessions[session].workspace
  {
    if t.executions[e].session != Some(session) {
      var a :|
        0 <= a < |t.actions| && t.actions[a].execution == Some(e) && OfSession(t.turns, t.actions[a].turn, session);
      var i :| 0 <= i < |t.turns| && t.turns[i].id == t.actions[a].turn && t.turns[i].key.session == session;
      assert LinkOk(t, t.turns[i], t.actions[a]);
    }
  }

  ghost predicate NeverSendsIds(commands: seq<Command>, key: Key) {
    forall i | 0 <= i < |commands| && commands[i].RecordEvent? && commands[i].request.key == key ::
      commands[i].request.providerTurn.None?
  }

  lemma {:induction false} WithoutSessionSingle(turns: seq<Turn>, session: Id, key: Key)
    requires AtMostOneActive(turns, key) && NoTurnIds(turns, key)
    ensures AtMostOneActive(WithoutSession(turns, session), key) && NoTurnIds(WithoutSession(turns, session), key)
    decreases |turns|
  {
    if turns != [] {
      var init, last := turns[..|turns| - 1], turns[|turns| - 1];
      WithoutSessionSingle(init, session, key);
      var rest := WithoutSession(init, session);
      forall i | 0 <= i < |rest| && IsActive(rest[i], key)
        ensures !IsActive(last, key)
      {
        assert rest[i] in init;
        var j :| 0 <= j < |init| && init[j] == rest[i];
        assert turns[j] == rest[i];
      }
    }
  }

  lemma EarlierSendsNoIds(commands: seq<Command>, key: Key)
    requires NeverSendsIds(commands, key) && commands != []
    ensures NeverSendsIds(commands[..|commands| - 1], key)
  {
  }

  /** Over any run, a provider session that never sends turn ids has at most one active turn. */
  lemma {:induction false} SilentSessionsHaveOneTurn(commands: seq<Command>, key: Key)
    requires AllIdsAreNew(commands) && NeverSendsIds(commands, key)
    ensures var turns := Run(EMPTY, commands).turns; AtMostOneActive(turns, key) && NoTurnIds(turns, key)
    decreases |commands|
  {
    if commands != [] {
      var n := |commands| - 1;
      EarlierIdsAreNew(commands);
      EarlierSendsNoIds(commands, key);
      SilentSessionsHaveOneTurn(commands[..n], key);
      TablesInvariant(commands[..n]);
      StaysSingle(Run(EMPTY, commands[..n]), commands[n], key);
    }
  }

  lemma StaysSingle(t: Tables, command: Command, key: Key)
    requires TurnsOk(t.turns) && AtMostOneActive(t.turns, key) && NoTurnIds(t.turns, key)
    requires command.RecordEvent? && command.request.key == key ==> command.request.providerTurn.None?
    ensures AtMostOneActive(Apply(t, command).turns, key) && NoTurnIds(Apply(t, command).turns, key)
  {
    if command.RecordEvent? {
      SilentSessionsStaySingle(t.turns, key, command.request, command.turnId, command.now);
    } else if command.DeleteSession? {
      WithoutSessionSingle(t.turns, command.id, key);
    }
  }

  // ---------------------------------------------------------------------------------------------
  // The store's operations
  // ---------------------------------------------------------------------------------------------

  /** A session as it is shown: its executions, turns and actions, each list by creation time. */
  datatype Detail = Detail(session: Session, executions: seq<Id>, turns: seq<Turn>, actions: seq<Action>)

  function TurnsOf(turns: seq<Turn>, session: Id): (own: seq<Turn>)
    ensures forall t :: t in own <==> t in turns && t.key.session == session
  {
    if turns == [] then []
    else
      var last, own := turns[|turns| - 1], TurnsOf(turns[..|turns| - 1], session);
      assert forall t :: t in turns <==> t == last || t in turns[..|turns| - 1];
      if last.key.session == session then own + [last] else own
  }

  function ActionsOf(actions: seq<Action>, turns: seq<Turn>, session: Id): (own: seq<Action>)
    ensures forall a :: a in own <==> a in actions && OfSession(turns, a.turn, session)
  {
    if actions == [] then []
    else
      var last, own := actions[|actions| - 1], ActionsOf(actions[..|actions| - 1], turns, session);
      assert forall a :: a in actions <==> a == last || a in actions[..|actions| - 1];
      if OfSession(turns, last.turn, session) then own + [last] else own
  }

  predicate Ascending<T>(list: seq<T>, at: T -> int) {
    forall i, j | 0 <= i < j < |list| :: at(list[i]) <= at(list[j])
  }

  lemma LastIsIn<T>(list: seq<T>)
    requires list != []
    ensures multiset(list) == multiset(list[..|list| - 1]) + multiset{list[|list| - 1]}
  {
    assert list == list[..|list| - 1] + [list[|list| - 1]];
  }

  /** An element's place among others: behind those that are not later. */
  function Placed<T(==)>(list: seq<T>, x: T, at: T -> int): (longer: seq<T>)
    requires Ascending(list, at)
    ensures Ascending(longer, at) && multiset(longer) == multiset(list) + multiset{x}
    ensures longer != [] && at(longer[|longer| - 1]) == (
      if list == [] || at(list[|list| - 1]) <= at(x) then at(x) else at(list[|list| - 1]))
  {
    if list == [] || at(list[|list| - 1]) <= at(x) then list + [x]
    else
      LastIsIn(list);
      Placed(list[..|list| - 1], x, at) + [list[|list| - 1]]
  }

  /** `ORDER BY` of a time; what is equally old keeps its order here, and may have any in the original. */
  function InOrder<T(==)>(list: seq<T>, at: T -> int): (ordered: seq<T>)
    ensures Ascending(ordered, at) && multiset(ordered) == multiset(list)
  {
    if list == [] then []
    else
      LastIsIn(list);
      Placed(InOrder(list[..|list| - 1], at), list[|list| - 1], at)
  }

  lemma SameElements<T>(a: seq<T>, b: multiset<T>)
    requires multiset(a) == b
    ensures forall x :: x in a <==> x in b
  {
    assert forall x :: x in a <==> x in multiset(a);
  }

  lemma HasTurnAmong(turns: seq<Turn>, others: seq<Turn>, turn: Id)
    requires HasTurn(turns, turn) && forall t :: t in turns ==> t in others
    ensures HasTurn(others, turn)
  {
    var i :| 0 <= i < |turns| && turns[i].id == turn;
    assert turns[i] in others;
    var j :| 0 <= j < |others| && others[j] == turns[i];
  }

  function CreationTime(executions: map<Id, Execution>, id: Id): int {
    if id in executions then executions[id].createdAt else 0
  }

  lemma DetailIsSound(t: Tables, id: Id)
    requires id in t.sessions
    ensures forall action | action in ActionsOf(t.actions, t.turns, id) :: HasTurn(TurnsOf(t.turns, id), action.turn)
    ensures forall e | e in t.executions ::
      (t.executions[e].session == Some(id)
       || exists action :: action in ActionsOf(t.actions, t.turns, id) && action.execution == Some(e))
      <==> e in DetailExecutions(t, id)
    ensures LinksOk(t) && MembersOk(t) ==>
      forall e | e in DetailExecutions(t, id) ::
        e in t.executions && t.executions[e].workspace == t.sessions[id].workspace
  {
    forall action | action in ActionsOf(t.actions, t.turns, id)
      ensures HasTurn(TurnsOf(t.turns, id), action.turn)
    {
      OwnTurn(t.turns, action.turn, id);
    }
    forall e | e in t.executions
      ensures (t.executions[e].session == Some(id)
               || exists action :: action in ActionsOf(t.actions, t.turns, id) && action.execution == Some(e))
              <==> e in DetailExecutions(t, id)
    {
      ReferredTo(t, id, e);
    }
    if LinksOk(t) && MembersOk(t) {
      forall e | e in DetailExecutions(t, id)
        ensures e in t.executions && t.executions[e].workspace == t.sessions[id].workspace
      {
        DetailInWorkspace(t, id, e);
      }
    }
  }

  lemma SameLists<T>(a: seq<T>, b: seq<T>)
    requires multiset(a) == multiset(b)
    ensures forall x :: x in a <==> x in b
  {
    SameElements(a, multiset(b));
  }

  lemma ShownActions(t: Tables, id: Id, turns: seq<Turn>, actions: seq<Action>)
    requires forall turn :: turn in turns <==> turn in TurnsOf(t.turns, id)
    requires forall action :: action in actions <==> action in ActionsOf(t.actions, t.turns, id)
    requires id in t.sessions
    ensures forall action | action in actions :: action in t.actions && HasTurn(turns, action.turn)
  {
    DetailIsSound(t, id);
    forall action | action in actions
      ensures HasTurn(turns, action.turn)
    {
      HasTurnAmong(TurnsOf(t.turns, id), turns, action.turn);
    }
  }

  lemma ShownExecutions(t: Tables, id: Id, actions: seq<Action>, executions: seq<Id>)
    requires forall action :: action in actions <==> action in ActionsOf(t.actions, t.turns, id)
    requires forall e :: e in executions <==> e in DetailExecutions(t, id)
    requires id in t.sessions
    ensures forall e | e in t.executions ::
      (t.executions[e].session == Some(id)
       || exists action :: action in actions && action.execution == Some(e)) <==> e in executions
    ensures LinksOk(t) && MembersOk(t) ==>
      forall e | e in executions :: e in t.executions && t.executions[e].workspace == t.sessions[id].workspace
  {
    DetailIsSound(t, id);
  }

  lemma DetailIsShown(t: Tables, id: Id, shown: Detail)
    requires id in t.sessions
    requires multiset(shown.turns) == multiset(TurnsOf(t.turns, id))
    requires multiset(shown.actions) == multiset(ActionsOf(t.actions, t.turns, id))
    requires multiset(shown.executions) == multiset(DetailExecutions(t, id))
    ensures forall turn :: turn in shown.turns <==> turn in t.turns && turn.key.session == id
    ensures forall action | action in shown.actions :: action in t.actions && HasTurn(shown.turns, action.turn)
    ensures forall e | e in t.executions ::
      (t.executions[e].session == Some(id)
       || exists action :: action in shown.actions && action.execution == Some(e)) <==> e in shown.executions
    ensures LinksOk(t) && MembersOk(t) ==>
      forall e | e in shown.executions ::
        e in t.executions && t.executions[e].workspace == t.sessions[id].workspace
  {
    SameLists(shown.turns, TurnsOf(t.turns, id));
    SameLists(shown.actions, ActionsOf(t.actions, t.turns, id));
    SameElements(shown.executions, multiset(DetailExecutions(t, id)));
    ShownActions(t, id, shown.turns, shown.actions);
    ShownExecutions(t, id, shown.actions, shown.executions);
  }

  lemma OwnTurn(turns: seq<Turn>, turn: Id, session: Id)
    requires OfSession(turns, turn, session)
    ensures HasTurn(TurnsOf(turns, session), turn)
  {
    var i :| 0 <= i < |turns| && turns[i].id == turn && turns[i].key.session == session;
    var own := TurnsOf(turns, session);
    assert turns[i] in own;
    var j :| 0 <= j < |own| && own[j] == turns[i];
  }

  lemma ReferredTo(t: Tables, id: Id, e: Id)
    requires e in t.executions
    ensures (exists a :: 0 <= a < |t.actions| && t.actions[a].execution == Some(e)
                         && OfSession(t.turns, t.actions[a].turn, id))
      <==> exists action :: action in ActionsOf(t.actions, t.turns, id) && action.execution == Some(e)
  {
    if a :| 0 <= a < |t.actions| && t.actions[a].execution == Some(e) && OfSession(t.turns, t.actions[a].turn, id) {
      assert t.actions[a] in ActionsOf(t.actions, t.turns, id);
    }
    if action :| action in ActionsOf(t.actions, t.turns, id) && action.execution == Some(e) {
      var a :| 0 <= a < |t.actions| && t.actions[a] == action;
    }
  }

  class AgentStore {
    var sessions: map<Id, Session>
    var turns: seq<Turn>
    var actions: seq<Action>
    var executions: map<Id, Execution>

    function View(): Tables
      reads this
    {
      Tables(sessions, turns, actions, executions)
    }

    constructor ()
      ensures View() == EMPTY
    {
      sessions, turns, actions, executions := map[], [], [], map[];
    }

    method GetSessionRecord(id: Id) returns (r: Result<Session>)
      ensures r == if id in sessions then Ok(sessions[id]) else Err(AgentSessionNotFound(id))
    {
      return if id in sessions then Ok(sessions[id]) else Err(AgentSessionNotFound(id));
    }

    /** Ending a session that has ended already answers with it and changes nothing. */
    method FinishAgentSession(id: Id, finish: SessionFinish, now: int) returns (r: Result<Session>)
      modifies this
      ensures View() == Apply(old(View()), FinishSession(id, finish, now))
      ensures !Finishable(finish) ==> r == Err(InvalidRequest)
      ensures Finishable(finish) && id !in old(sessions) ==> r == Err(AgentSessionNotFound(id))
      ensures Finishable(finish) && id in old(sessions) ==> r == Ok(sessions[id])
    {
      if finish.state == Recording {
        return Err(InvalidRequest);
      }
      if finish.state.SessionInterrupted? != finish.outcome.InterruptedBy? {
        return Err(InvalidRequest);
      }
      var current := GetSessionRecord(id);
      if current.Err? {
        return current;
      }
      if !current.value.state.Recording? {
        return current;
      }
      sessions := sessions[id := FinishedSession(current.value, finish, now)];
      turns := InterruptSession(turns, id, now);
      r := GetSessionRecord(id);
    }

    method FindOrCreateTurn(request: Request, id: Id, now: int) returns (k: nat)
      modifies this`turns
      ensures (turns, k) == FindOrCreate(old(turns), request, id, now)
    {
      var existing;
      if request.providerTurn.Some? {
        existing := FindProviderTurn(turns, request.key, request.providerTurn);
      } else {
        existing := FindActiveTurn(turns, request.key);
      }
      if existing.Some? {
        return existing.value;
      }
      k := |turns|;
      turns := turns + [FreshTurn(request, id, "", now)];
    }

    method UpsertAction(event: AgentEvent, turn: Id, linked: Option<Id>, id: Id, now: int)
      requires event.ToolStarted? || event.ToolFinished?
      modifies this`actions
      ensures actions == ActionsAfter(old(actions), turn, event, linked, id, now)
    {
      var found := FindAction(actions, turn, event.actionId);
      if found.Some? {
        actions := actions[found.value := Merged(actions[found.value], event, linked, now)];
      } else {
        actions := actions + [NewAction(id, turn, event, linked, now)];
      }
    }

    method RecordAgentEvent(request: Request, now: int, turnId: Id, actionId: Id) returns (r: Result<Turn>)
      modifies this
      ensures View() == Apply(old(View()), RecordEvent(request, now, turnId, actionId))
      ensures !WellFormed(request) ==> r == Err(InvalidRequest)
      ensures WellFormed(request) && request.key.session !in old(sessions) ==>
        r == Err(AgentSessionNotFound(request.key.session))
      ensures (WellFormed(request) && request.key.session in old(sessions)
               && !IsRecording(old(View()), request.key.session)) ==> r == Err(InvalidRequest)
      ensures WellFormed(request) && IsRecording(old(View()), request.key.session) ==>
        r == Ok(turns[TurnsAfter(old(turns), request, turnId, now).1])
    {
      if !WellFormed(request) {
        return Err(InvalidRequest);
      }
      var session := GetSessionRecord(request.key.session);
      if session.Err? {
        return Err(session.error);
      }
      if session.value.state != Recording {
        return Err(InvalidRequest);
      }
      var k;
      match request.event {
        case PromptSubmitted(prompt) =>
          turns := Displace(turns, request.key, request.providerTurn, now);
          var found := FindProviderTurn(turns, request.key, request.providerTurn);
          if found.Some? {
            k := found.value;
            turns := turns[k := Reopened(turns[k], prompt)];
          } else {
            k := |turns|;
            turns := turns + [FreshTurn(request, turnId, prompt, now)];
          }
        case ToolStarted(_, _) =>
          k := FindOrCreateTurn(request, turnId, now);
          UpsertAction(request.event, turns[k].id, None, actionId, now);
        case ToolFinished(_, _, _, execution) =>
          k := FindOrCreateTurn(request, turnId, now);
          var linked := Linked(executions, session.value.workspace, execution);
          UpsertAction(request.event, turns[k].id, linked, actionId, now);
        case TurnFinished(failed, message) =>
          k := FindOrCreateTurn(request, turnId, now);
          turns := turns[k := Concluded(turns[k], failed, message, now)];
      }
      return Ok(turns[k]);
    }

    /** The session an execution names is checked before the execution is inserted. */
    method CreateExecution(id: Id, workspace: Id, session: Option<Id>, initiatorKind: string, now: int)
      returns (r: Result<Execution>)
      requires id !in executions
      modifies this
      ensures View() == Apply(old(View()), Command.CreateExecution(id, workspace, session, initiatorKind, now))
      ensures session.Some? && session.value !in old(sessions) ==> r == Err(AgentSessionNotFound(session.value))
      ensures session.Some? && session.value in old(sessions) && !MayJoin(old(View()), workspace, session) ==>
        r == Err(InvalidRequest)
      ensures MayJoin(old(View()), workspace, session) ==>
        id in executions && r == Ok(executions[id]) && executions[id].state == Queued
    {
      if session.Some? {
        var found := GetSessionRecord(session.value);
        if found.Err? {
          return Err(found.error);
        }
        if found.value.workspace != workspace {
          return Err(InvalidRequest);
        }
        if found.value.state != Recording {
          return Err(InvalidRequest);
        }
      }
      var execution := Execution(workspace, session, initiatorKind, Queued, None, now, None, None, 0, false, 0);
      executions := executions[id := execution];
      return Ok(execution);
    }

    method DeleteAgentSession(id: Id) returns (r: Result<()>)
      modifies this
      ensures View() == Apply(old(View()), DeleteSession(id))
      ensures r == if id !in old(sessions) then Err(AgentSessionNotFound(id))
                   else if old(sessions)[id].state.Recording? then Err(InvalidRequest) else Ok(())
    {
      var session := GetSessionRecord(id);
      if session.Err? {
        return Err(session.error);
      }
      if session.value.state.Recording? {
        return Err(InvalidRequest);
      }
      executions := Detached(executions, id);
      actions := WithoutActions(actions, turns, id);
      turns := WithoutSession(turns, id);
      sessions := sessions - {id};
      return Ok(());
    }

    static method ListIds(ids: set<Id>) returns (list: seq<Id>)
      ensures multiset(list) == multiset(ids)
    {
      var left := ids;
      list := [];
      while left != {}
        invariant left <= ids && multiset(list) + multiset(left) == multiset(ids)
        decreases |left|
      {
        var id :| id in left;
        list := list + [id];
        left := left - {id};
      }
    }

    /** The session with exactly its own turns, the actions of those turns, and every execution that
        was started in it or that one of the actions refers to, each once and by creation time; all
        of these belong to the session's workspace as long as the links and memberships are sound. */
    method GetAgentSession(id: Id) returns (r: Result<Detail>)
      ensures id !in sessions ==> r == Err(AgentSessionNotFound(id))
      ensures id in sessions ==> r.Ok? && r.value.session == sessions[id]
      ensures r.Ok? ==> multiset(r.value.turns) == multiset(TurnsOf(turns, id))
      ensures r.Ok? ==> (forall turn :: turn in r.value.turns <==> turn in turns && turn.key.session == id)
      ensures r.Ok? ==> multiset(r.value.actions) == multiset(ActionsOf(actions, turns, id))
      ensures r.Ok? ==> forall action | action in r.value.actions ::
        action in actions && HasTurn(r.value.turns, action.turn)
      ensures r.Ok? ==> multiset(r.value.executions) == multiset(DetailExecutions(View(), id))
      ensures r.Ok? ==> forall e | e in executions ::
        (executions[e].session == Some(id)
         || exists action :: action in r.value.actions && action.execution == Some(e)) <==> e in r.value.executions
      ensures r.Ok? && LinksOk(View()) && MembersOk(View()) ==>
        forall e | e in r.value.executions :: e in executions && executions[e].workspace == sessions[id].workspace
      ensures r.Ok? ==> forall i, j | 0 <= i < j < |r.value.turns| ::
        r.value.turns[i].createdAt <= r.value.turns[j].createdAt
      ensures r.Ok? ==> forall i, j | 0 <= i < j < |r.value.actions| ::
        r.value.actions[i].createdAt <= r.value.actions[j].createdAt
      ensures r.Ok? ==> forall i, j | 0 <= i < j < |r.value.executions| ::
        CreationTime(executions, r.value.executions[i]) <= CreationTime(executions, r.value.executions[j])
    {
      var session := GetSessionRecord(id);
      if session.Err? {
        return Err(session.error);
      }
      var table := executions;
      var ids := ListIds(DetailExecutions(View(), id));
      var shown := Detail(session.value,
                          InOrder(ids, (e: Id) => CreationTime(table, e)),
                          InOrder(TurnsOf(turns, id), (turn: Turn) => turn.createdAt),
                          InOrder(ActionsOf(actions, turns, id), (action: Action) => action.createdAt));
      DetailIsShown(View(), id, shown);
      return Ok(shown);
    }
  }
}
