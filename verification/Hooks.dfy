/** Merging Loomterm's hooks into an agent's settings file (src/onboarding.rs). JSON text is taken to
    parse back to the document that was printed. */
module Hooks {
  import opened Model

  datatype Json =
    | Null
    | Bool(truth: bool)
    | Number(digits: string)
    | Str(text: string)
    | Array(items: seq<Json>)
    | Object(fields: map<string, Json>)

  datatype Provider = Claude | Codex

  datatype Plan = Unchanged | Create(content: Json) | Replace(content: Json)

  function Name(provider: Provider): string {
    match provider
    case Claude => "claude"
    case Codex => "codex"
  }

  function Events(provider: Provider): seq<string> {
    match provider
    case Claude => ["UserPromptSubmit", "PreToolUse", "PostToolUse", "PostToolUseFailure", "Stop", "StopFailure"]
    case Codex => ["UserPromptSubmit", "PreToolUse", "PostToolUse", "Stop"]
  }

  function Field(value: Json, key: string): Option<Json> {
    if value.Object? && key in value.fields then Some(value.fields[key]) else None
  }

  // ---------------------------------------------------------------------------------------------
  // Recognising a handler
  // ---------------------------------------------------------------------------------------------

  predicate Contains(s: string, part: string) {
    exists i | 0 <= i <= |s| :: part <= s[i..]
  }

  function Suffix(provider: Provider): string {
    "agent-event --provider " + Name(provider)
  }

  function Arguments(provider: Provider): seq<Json> {
    [Str("agent-event"), Str("--provider"), Str(Name(provider))]
  }

  predicate HasArguments(args: seq<Json>, provider: Provider) {
    exists i | 0 <= i <= |args| :: Arguments(provider) <= args[i..]
  }

  /** Taken for one of Loomterm's: its words occur anywhere in the command, or among the arguments. */
  predicate IsLoomterm(handler: Json, provider: Provider) {
    var command, args := Field(handler, "command"), Field(handler, "args");
    || (command.Some? && command.value.Str? && Contains(command.value.text, Suffix(provider)))
    || (args.Some? && args.value.Array? && HasArguments(args.value.items, provider))
  }

  // ---------------------------------------------------------------------------------------------
  // The handler that is wanted
  // ---------------------------------------------------------------------------------------------

  /** The environment variables that are set, of those the hook passes on. */
  type Environment = seq<(string, string)>

  /** A quote inside single quotes: close them, escape it, open them again. */
  const ESCAPED_QUOTE: string := "'\\''"

  function Escaped(value: string): string {
    if value == "" then ""
    else (if value[0] == '\'' then ESCAPED_QUOTE else [value[0]]) + Escaped(value[1..])
  }

  function ShellQuote(value: string): string {
    "'" + Escaped(value) + "'"
  }

  function Assignments(env: Environment): seq<Json> {
    seq(|env|, i requires 0 <= i < |env| => Str(env[i].0 + "=" + env[i].1))
  }

  function QuotedAssignments(env: Environment): string {
    if env == [] then "" else env[0].0 + "=" + ShellQuote(env[0].1) + " " + QuotedAssignments(env[1..])
  }

  function HookHandler(command: string, provider: Provider, env: Environment): Json {
    match provider
    case Claude =>
      if env == [] then
        Object(map["type" := Str("command"), "command" := Str(command), "args" := Array(Arguments(provider)),
                   "timeout" := Number("5")])
      else
        Object(map["type" := Str("command"), "command" := Str("/usr/bin/env"),
                   "args" := Array(Assignments(env) + [Str(command)] + Arguments(provider)),
                   "timeout" := Number("5")])
    case Codex =>
      Object(map["type" := Str("command"),
                 "command" := Str(QuotedAssignments(env) + ShellQuote(command) + " " + Suffix(provider)),
                 "timeout" := Number("5")])
  }

  /** Loomterm recognises its own handler, whatever the command's path and the environment. */
  lemma HandlerIsRecognised(command: string, provider: Provider, env: Environment)
    ensures IsLoomterm(HookHandler(command, provider, env), provider)
  {
    var handler := HookHandler(command, provider, env);
    match provider
    case Claude =>
      var args := handler.fields["args"].items;
      var i := |args| - 3;
      assert args[i..] == Arguments(provider);
    case Codex =>
      var text := handler.fields["command"].text;
      var i := |text| - |Suffix(provider)|;
      assert text[i..] == Suffix(provider);
  }

  /** What a POSIX shell makes of a word of single-quoted parts and escaped quotes. */
  function ShellWord(s: string, quoted: bool): Option<string>
    decreases |s|
  {
    if s == "" then (if quoted then None else Some(""))
    else if quoted then
      if s[0] == '\'' then ShellWord(s[1..], false)
      else
        var rest := ShellWord(s[1..], true);
        if rest.Some? then Some([s[0]] + rest.value) else None
    else if s[0] == '\'' then ShellWord(s[1..], true)
    else if |s| >= 2 && s[0] == '\\' then
      var rest := ShellWord(s[2..], false);
      if rest.Some? then Some([s[1]] + rest.value) else None
    else None
  }

  lemma EscapedQuoteReads(rest: string, value: string)
    requires ShellWord(rest, true) == Some(value)
    ensures ShellWord(ESCAPED_QUOTE + rest, true) == Some(['\''] + value)
  {
    var s, t, u := ESCAPED_QUOTE + rest, "\\''" + rest, "'" + rest;
    assert s[1..] == t && t[2..] == u && u[1..] == rest;
    assert ShellWord(u, false) == Some(value);
    assert ShellWord(t, false) == Some(['\''] + value);
  }

  lemma {:induction false} EscapedReadsBack(value: string)
    ensures ShellWord(Escaped(value) + "'", true) == Some(value)
    decreases |value|
  {
    var s := Escaped(value) + "'";
    if value == "" {
      assert s == "'" && s[1..] == "";
    } else {
      EscapedReadsBack(value[1..]);
      var rest := Escaped(value[1..]) + "'";
      if value[0] == '\'' {
        assert s == ESCAPED_QUOTE + rest;
        EscapedQuoteReads(rest, value[1..]);
      } else {
        assert s == [value[0]] + rest && s[1..] == rest;
      }
      assert [value[0]] + value[1..] == value;
    }
  }

  /** A quoted value reaches the hook's command unchanged. */
  lemma QuotingIsExact(value: string)
    ensures ShellWord(ShellQuote(value), false) == Some(value)
  {
    EscapedReadsBack(value);
    assert ShellQuote(value)[1..] == Escaped(value) + "'";
  }

  // ---------------------------------------------------------------------------------------------
  // The groups of one event
  // ---------------------------------------------------------------------------------------------

  /** The handler list of a group, if it has one. */
  function Handlers(group: Json): Option<seq<Json>> {
    var hooks := Field(group, "hooks");
    if hooks.Some? && hooks.value.Array? then Some(hooks.value.items) else None
  }

  function Ours(handlers: seq<Json>, provider: Provider): seq<Json> {
    if handlers == [] then []
    else
      var last, rest := handlers[|handlers| - 1], Ours(handlers[..|handlers| - 1], provider);
      if IsLoomterm(last, provider) then rest + [last] else rest
  }

  function Others(handlers: seq<Json>, provider: Provider): seq<Json> {
    if handlers == [] then []
    else
      var last, rest := handlers[|handlers| - 1], Others(handlers[..|handlers| - 1], provider);
      if IsLoomterm(last, provider) then rest else rest + [last]
  }

  /** A group without the handlers taken for Loomterm's. */
  function Cleaned(group: Json, provider: Provider): Json {
    match Handlers(group)
    case None => group
    case Some(handlers) => Object(group.fields["hooks" := Array(Others(handlers, provider))])
  }

  /** The cleaned groups, without those that have no handler left. */
  function CleanedGroups(groups: seq<Json>, provider: Provider): seq<Json> {
    if groups == [] then []
    else
      var rest := CleanedGroups(groups[..|groups| - 1], provider);
      var last := Cleaned(groups[|groups| - 1], provider);
      if Handlers(last) == Some([]) then rest else rest + [last]
  }

  function NewGroup(desired: Json): Json {
    Object(map["hooks" := Array([desired])])
  }

  function MergedGroups(groups: seq<Json>, provider: Provider, desired: Json): seq<Json> {
    CleanedGroups(groups, provider) + [NewGroup(desired)]
  }

  /** All handlers taken for Loomterm's in the groups of one event. */
  function OurHandlers(groups: seq<Json>, provider: Provider): seq<Json> {
    if groups == [] then []
    else
      var last, before := groups[|groups| - 1], OurHandlers(groups[..|groups| - 1], provider);
      if Handlers(last).Some? then before + Ours(Handlers(last).value, provider) else before
  }

  /** The other handlers, each with the rest of its group: its matcher, for one. */
  function Foreign(groups: seq<Json>, provider: Provider): seq<(map<string, Json>, Json)> {
    if groups == [] then []
    else Foreign(groups[..|groups| - 1], provider) + ForeignIn(groups[|groups| - 1], provider)
  }

  function ForeignIn(group: Json, provider: Provider): seq<(map<string, Json>, Json)> {
    match Handlers(group)
    case None => []
    case Some(handlers) =>
      var others := Others(handlers, provider);
      seq(|others|, i requires 0 <= i < |others| => (group.fields - {"hooks"}, others[i]))
  }

  /** Groups without a handler list are none of Loomterm's business. */
  function Unhooked(groups: seq<Json>): seq<Json> {
    if groups == [] then []
    else
      var last, before := groups[|groups| - 1], Unhooked(groups[..|groups| - 1]);
      if Handlers(last).None? then before + [last] else before
  }

  lemma {:induction false} OthersSettle(handlers: seq<Json>, provider: Provider)
    ensures Others(Others(handlers, provider), provider) == Others(handlers, provider)
    ensures Ours(Others(handlers, provider), provider) == []
    decreases |handlers|
  {
    if handlers != [] {
      var init, last := handlers[..|handlers| - 1], handlers[|handlers| - 1];
      OthersSettle(init, provider);
      if !IsLoomterm(last, provider) {
        assert (Others(init, provider) + [last])[..|Others(init, provider)|] == Others(init, provider);
      }
    }
  }

  lemma CleanedSettles(group: Json, provider: Provider)
    ensures Cleaned(Cleaned(group, provider), provider) == Cleaned(group, provider)
    ensures Handlers(Cleaned(group, provider)).Some? ==> Ours(Handlers(Cleaned(group, provider)).value, provider) == []
    ensures ForeignIn(Cleaned(group, provider), provider) == ForeignIn(group, provider)
    ensures Handlers(Cleaned(group, provider)).None? <==> Handlers(group).None?
  {
    if Handlers(group).Some? {
      OthersSettle(Handlers(group).value, provider);
      var fields := group.fields["hooks" := Array(Others(Handlers(group).value, provider))];
      assert fields - {"hooks"} == group.fields - {"hooks"};
      assert fields["hooks" := fields["hooks"]] == fields;
    }
  }

  lemma Snoc<T>(s: seq<T>, x: T)
    ensures (s + [x])[..|s + [x]| - 1] == s && (s + [x])[|s + [x]| - 1] == x
  {
  }

  /** Cleaning takes away the handlers that are recognised and nothing else. */
  lemma {:induction false} CleaningIsExact(groups: seq<Json>, provider: Provider)
    ensures var cleaned := CleanedGroups(groups, provider);
      && CleanedGroups(cleaned, provider) == cleaned && OurHandlers(cleaned, provider) == []
      && Foreign(cleaned, provider) == Foreign(groups, provider) && Unhooked(cleaned) == Unhooked(groups)
    decreases |groups|
  {
    if groups != [] {
      var init, last := groups[..|groups| - 1], groups[|groups| - 1];
      CleaningIsExact(init, provider);
      CleanedSettles(last, provider);
      Snoc(CleanedGroups(init, provider), Cleaned(last, provider));
    }
  }

  /** The merged groups hold the handlers that are not recognised as before, in the same order, groups
      and matchers, and of the recognised ones exactly the one that is wanted. */
  lemma MergeIsConservative(groups: seq<Json>, provider: Provider, desired: Json)
    requires IsLoomterm(desired, provider)
    ensures var merged := MergedGroups(groups, provider, desired);
      && Foreign(merged, provider) == Foreign(groups, provider) && Unhooked(merged) == Unhooked(groups)
      && CleanedGroups(merged, provider) == CleanedGroups(groups, provider)
      && OurHandlers(merged, provider) == [desired]
  {
    var cleaned := CleanedGroups(groups, provider);
    CleaningIsExact(groups, provider);
    Snoc(cleaned, NewGroup(desired));
    assert Handlers(NewGroup(desired)) == Some([desired]) && [desired][..0] == [];
    assert Ours([desired], provider) == [desired] && Others([desired], provider) == [];
    assert Foreign(cleaned, provider) + [] == Foreign(cleaned, provider);
  }

  /** Some group of the event lists the handler. */
  predicate Listed(groups: seq<Json>, handler: Json) {
    exists group | group in groups :: Lists(group, handler)
  }

  predicate Lists(group: Json, handler: Json) {
    Handlers(group).Some? && handler in Handlers(group).value
  }

  lemma ListedSnoc(groups: seq<Json>, group: Json, handler: Json)
    ensures Listed(groups + [group], handler) <==> Listed(groups, handler) || Lists(group, handler)
  {
    assert forall other :: other in groups + [group] <==> other in groups || other == group;
  }

  lemma {:induction false} OthersAre(handlers: seq<Json>, provider: Provider, handler: Json)
    ensures handler in Others(handlers, provider) <==> handler in handlers && !IsLoomterm(handler, provider)
    decreases |handlers|
  {
    if handlers != [] {
      OthersAre(handlers[..|handlers| - 1], provider, handler);
      assert handlers == handlers[..|handlers| - 1] + [handlers[|handlers| - 1]];
    }
  }

  lemma CleanedLists(group: Json, provider: Provider, handler: Json)
    ensures Lists(Cleaned(group, provider), handler) <==> Lists(group, handler) && !IsLoomterm(handler, provider)
  {
    if Handlers(group).Some? { OthersAre(Handlers(group).value, provider, handler); }
  }

  lemma {:induction false} CleaningRemovesTheRecognised(groups: seq<Json>, provider: Provider, handler: Json)
    ensures Listed(CleanedGroups(groups, provider), handler)
      <==> Listed(groups, handler) && !IsLoomterm(handler, provider)
    decreases |groups|
  {
    if groups != [] {
      var init, last := groups[..|groups| - 1], groups[|groups| - 1];
      CleaningRemovesTheRecognised(init, provider, handler);
      CleanedLists(last, provider, handler);
      assert groups == init + [last];
      ListedSnoc(init, last, handler);
      ListedSnoc(CleanedGroups(init, provider), Cleaned(last, provider), handler);
    }
  }

  /** Exactly the recognised handlers are removed, whoever put them there. */
  lemma MergeRemovesTheRecognised(groups: seq<Json>, provider: Provider, desired: Json, handler: Json)
    ensures Listed(MergedGroups(groups, provider, desired), handler)
      <==> handler == desired || (Listed(groups, handler) && !IsLoomterm(handler, provider))
  {
    CleaningRemovesTheRecognised(groups, provider, handler);
    ListedSnoc(CleanedGroups(groups, provider), NewGroup(desired), handler);
    assert Lists(NewGroup(desired), handler) <==> handler in [desired];
  }

  // ---------------------------------------------------------------------------------------------
  // The document
  // ---------------------------------------------------------------------------------------------

  type Fields = map<string, Json>

  function RootOf(source: Option<Json>): Json {
    if source.Some? then source.value else Object(map[])
  }

  /** The hooks of a document; a missing one counts as empty. */
  function HooksIn(root: Json): Json {
    if root.Object? && "hooks" in root.fields then root.fields["hooks"] else Object(map[])
  }

  function GroupsIn(hooks: Fields, event: string): Json {
    if event in hooks then hooks[event] else Array([])
  }

  function Groups(hooks: Fields, event: string): seq<Json> {
    if GroupsIn(hooks, event).Array? then GroupsIn(hooks, event).items else []
  }

  predicate HaveGroups(hooks: Fields, events: seq<string>) {
    forall event | event in events :: GroupsIn(hooks, event).Array?
  }

  predicate AnyOther(handlers: seq<Json>, desired: Json) {
    exists handler | handler in handlers :: handler != desired
  }

  lemma AnyOtherJoins(a: seq<Json>, b: seq<Json>, desired: Json)
    ensures AnyOther(a + b, desired) <==> AnyOther(a, desired) || AnyOther(b, desired)
  {
    if AnyOther(a, desired) {
      var handler :| handler in a && handler != desired;
      assert handler in a + b;
    }
    if AnyOther(b, desired) {
      var handler :| handler in b && handler != desired;
      assert handler in a + b;
    }
  }

  predicate IsStale(hooks: Fields, events: seq<string>, provider: Provider, desired: Json) {
    exists event | event in events :: AnyOther(OurHandlers(Groups(hooks, event), provider), desired)
  }

  predicate IsExact(hooks: Fields, events: seq<string>, provider: Provider, desired: Json) {
    forall event | event in events :: desired in OurHandlers(Groups(hooks, event), provider)
  }

  function MergedHooks(hooks: Fields, events: seq<string>, provider: Provider, desired: Json): Fields {
    map event | event in hooks.Keys + (set e | e in events) ::
      if event in events then Array(MergedGroups(Groups(hooks, event), provider, desired)) else hooks[event]
  }

  function PlannedFor(root: Json, events: seq<string>, provider: Provider, desired: Json, force: bool): Result<Plan> {
    if !root.Object? || !HooksIn(root).Object? || !HaveGroups(HooksIn(root).fields, events) then Err(Config)
    else
      var hooks := HooksIn(root).fields;
      var stale := IsStale(hooks, events, provider, desired);
      if stale && !force then Err(Config)
      else if !stale && IsExact(hooks, events, provider, desired) then Ok(Unchanged)
      else
        var content := Object(root.fields["hooks" := Object(MergedHooks(hooks, events, provider, desired))]);
        Ok(if stale then Replace(content) else Create(content))
  }

  function Planned(source: Option<Json>, provider: Provider, desired: Json, force: bool): Result<Plan> {
    PlannedFor(RootOf(source), Events(provider), provider, desired, force)
  }

  /** The only handler recognised for this event is the wanted one. */
  ghost predicate EventIsExact(hooks: Fields, event: string, provider: Provider, desired: Json) {
    GroupsIn(hooks, event).Array? && OurHandlers(Groups(hooks, event), provider) == [desired]
  }

  lemma MergedEvent(hooks: Fields, events: seq<string>, provider: Provider, desired: Json, event: string)
    requires event in events
    ensures var merged := MergedHooks(hooks, events, provider, desired);
      && GroupsIn(merged, event).Array?
      && Groups(merged, event) == MergedGroups(Groups(hooks, event), provider, desired)
  {
    assert event in hooks.Keys + (set e | e in events);
  }

  lemma MergedEventIsExact(hooks: Fields, events: seq<string>, provider: Provider, desired: Json, event: string)
    requires IsLoomterm(desired, provider) && event in events
    ensures EventIsExact(MergedHooks(hooks, events, provider, desired), event, provider, desired)
  {
    MergedEvent(hooks, events, provider, desired, event);
    MergeIsConservative(Groups(hooks, event), provider, desired);
  }

  lemma ExactEvents(hooks: Fields, events: seq<string>, provider: Provider, desired: Json)
    requires forall event | event in events :: EventIsExact(hooks, event, provider, desired)
    ensures HaveGroups(hooks, events) && !IsStale(hooks, events, provider, desired)
    ensures IsExact(hooks, events, provider, desired)
  {
  }

  lemma MergedIsExact(hooks: Fields, events: seq<string>, provider: Provider, desired: Json)
    requires IsLoomterm(desired, provider)
    ensures var merged := MergedHooks(hooks, events, provider, desired);
      && HaveGroups(merged, events) && !IsStale(merged, events, provider, desired)
      && IsExact(merged, events, provider, desired)
  {
    var merged := MergedHooks(hooks, events, provider, desired);
    forall event | event in events ensures EventIsExact(merged, event, provider, desired) {
      MergedEventIsExact(hooks, events, provider, desired, event);
    }
    ExactEvents(merged, events, provider, desired);
  }

  lemma PlannedContent(source: Option<Json>, provider: Provider, desired: Json, force: bool)
    requires var plan := Planned(source, provider, desired, force); plan.Ok? && !plan.value.Unchanged?
    ensures var root := RootOf(source);
      && root.Object? && HooksIn(root).Object?
      && var merged := MergedHooks(HooksIn(root).fields, Events(provider), provider, desired);
         Planned(source, provider, desired, force).value.content == Object(root.fields["hooks" := Object(merged)])
  {
  }

  lemma ExactIsUnchanged(fields: Fields, hooks: Fields, provider: Provider, desired: Json, force: bool)
    requires HaveGroups(hooks, Events(provider))
    requires !IsStale(hooks, Events(provider), provider, desired) && IsExact(hooks, Events(provider), provider, desired)
    ensures Planned(Some(Object(fields["hooks" := Object(hooks)])), provider, desired, force) == Ok(Unchanged)
  {
    var root := Object(fields["hooks" := Object(hooks)]);
    assert HooksIn(root) == Object(hooks);
  }

  /** Planning again for what was written finds nothing to do, forced or not. */
  lemma PlanningIsIdempotent(source: Option<Json>, command: string, provider: Provider, env: Environment,
                             force: bool, again: bool)
    ensures var desired := HookHandler(command, provider, env); var plan := Planned(source, provider, desired, force);
      plan.Ok? && !plan.value.Unchanged? ==>
        Planned(Some(plan.value.content), provider, desired, again) == Ok(Unchanged)
  {
    var desired := HookHandler(command, provider, env);
    var plan := Planned(source, provider, desired, force);
    if plan.Ok? && !plan.value.Unchanged? {
      var root := RootOf(source);
      PlannedContent(source, provider, desired, force);
      HandlerIsRecognised(command, provider, env);
      var merged := MergedHooks(HooksIn(root).fields, Events(provider), provider, desired);
      MergedIsExact(HooksIn(root).fields, Events(provider), provider, desired);
      ExactIsUnchanged(root.fields, merged, provider, desired, again);
    }
  }

  /** What merging leaves alone, and what it does to one event. */
  ghost predicate Conserves(before: Fields, after: Fields, events: seq<string>, provider: Provider, desired: Json,
                            event: string)
  {
    if event !in events then
      (event in after <==> event in before) && (event in after ==> after[event] == before[event])
    else
      var was, now := Groups(before, event), Groups(after, event);
      && Foreign(now, provider) == Foreign(was, provider) && Unhooked(now) == Unhooked(was)
      && CleanedGroups(now, provider) == CleanedGroups(was, provider)
      && OurHandlers(now, provider) == [desired]
  }

  lemma MergedConserves(hooks: Fields, events: seq<string>, provider: Provider, desired: Json, event: string)
    requires IsLoomterm(desired, provider)
    ensures Conserves(hooks, MergedHooks(hooks, events, provider, desired), events, provider, desired, event)
  {
    if event in events {
      MergedEvent(hooks, events, provider, desired, event);
      MergeIsConservative(Groups(hooks, event), provider, desired);
    }
  }

  /** Whatever is written keeps every key of the document but `hooks`, every event that is of no
      concern to the provider, and all handlers that are not recognised. */
  lemma PlanningIsConservative(source: Option<Json>, command: string, provider: Provider, env: Environment,
                               force: bool, key: string)
    requires var plan := Planned(source, provider, HookHandler(command, provider, env), force);
      plan.Ok? && !plan.value.Unchanged?
    ensures var desired := HookHandler(command, provider, env);
      var root, content := RootOf(source), Planned(source, provider, desired, force).value.content;
      && root.Object? && content.Object? && HooksIn(root).Object? && HooksIn(content).Object?
      && (key != "hooks" ==> Field(content, key) == Field(root, key))
      && Conserves(HooksIn(root).fields, HooksIn(content).fields, Events(provider), provider, desired, key)
  {
    var desired := HookHandler(command, provider, env);
    PlannedContent(source, provider, desired, force);
    HandlerIsRecognised(command, provider, env);
    MergedConserves(HooksIn(RootOf(source)).fields, Events(provider), provider, desired, key);
  }

  /** Of the handlers of the provider's events, what is written lacks exactly those that are recognised
      and not the wanted one. */
  lemma PlanningRemovesTheRecognised(source: Option<Json>, command: string, provider: Provider, env: Environment,
                                     force: bool, event: string, handler: Json)
    requires var plan := Planned(source, provider, HookHandler(command, provider, env), force);
      plan.Ok? && !plan.value.Unchanged? && event in Events(provider)
    ensures var desired := HookHandler(command, provider, env);
      var root, content := RootOf(source), Planned(source, provider, desired, force).value.content;
      && HooksIn(root).Object? && HooksIn(content).Object?
      && (Listed(Groups(HooksIn(content).fields, event), handler) <==>
            || handler == desired
            || (Listed(Groups(HooksIn(root).fields, event), handler) && !IsLoomterm(handler, provider)))
  {
    var desired := HookHandler(command, provider, env);
    PlannedContent(source, provider, desired, force);
    var hooks := HooksIn(RootOf(source)).fields;
    MergedEvent(hooks, Events(provider), provider, desired, event);
    MergeRemovesTheRecognised(Groups(hooks, event), provider, desired, handler);
  }

  lemma {:induction false} OursAre(handlers: seq<Json>, provider: Provider, handler: Json)
    ensures handler in Ours(handlers, provider) <==> handler in handlers && IsLoomterm(handler, provider)
    decreases |handlers|
  {
    if handlers != [] {
      OursAre(handlers[..|handlers| - 1], provider, handler);
      assert handlers == handlers[..|handlers| - 1] + [handlers[|handlers| - 1]];
    }
  }

  lemma {:induction false} OurHandlersAre(groups: seq<Json>, provider: Provider, handler: Json)
    ensures handler in OurHandlers(groups, provider) <==> Listed(groups, handler) && IsLoomterm(handler, provider)
    decreases |groups|
  {
    if groups != [] {
      var init, last := groups[..|groups| - 1], groups[|groups| - 1];
      OurHandlersAre(init, provider, handler);
      assert groups == init + [last];
      ListedSnoc(init, last, handler);
      if Handlers(last).Some? { OursAre(Handlers(last).value, provider, handler); }
    }
  }

  /** A recognised handler other than the wanted one is in the way of a merge, and a forced merge
      removes it. */
  lemma RecognisedIsInTheWay(source: Option<Json>, command: string, provider: Provider, env: Environment,
                             event: string, handler: Json)
    requires RootOf(source).Object? && HooksIn(RootOf(source)).Object?
    requires var hooks := HooksIn(RootOf(source)).fields;
      HaveGroups(hooks, Events(provider)) && event in Events(provider) && Listed(Groups(hooks, event), handler)
    requires IsLoomterm(handler, provider) && handler != HookHandler(command, provider, env)
    ensures var desired := HookHandler(command, provider, env);
      var forced := Planned(source, provider, desired, true);
      && Planned(source, provider, desired, false) == Err(Config)
      && forced.Ok? && forced.value.Replace? && HooksIn(forced.value.content).Object?
      && !Listed(Groups(HooksIn(forced.value.content).fields, event), handler)
  {
    var desired := HookHandler(command, provider, env);
    var groups := Groups(HooksIn(RootOf(source)).fields, event);
    OurHandlersAre(groups, provider, handler);
    assert AnyOther(OurHandlers(groups, provider), desired);
    PlanningRemovesTheRecognised(source, command, provider, env, true, event, handler);
  }

  lemma ContainsMiddle(front: string, middle: string, back: string)
    ensures Contains(front + middle + back, middle)
  {
    assert (front + middle + back)[|front|..] == middle + back;
  }

  /** A user's own handler with a command like `my-agent-event --provider codex-cli`. */
  function UsersHandler(front: string, provider: Provider, back: string): Json {
    Object(map["type" := Str("command"), "command" := Str(front + Suffix(provider) + back)])
  }

  /** Such a handler is not Loomterm's, and is taken for one of Loomterm's. */
  lemma UsersHandlerIsRecognised(front: string, provider: Provider, back: string, command: string, env: Environment)
    ensures var handler := UsersHandler(front, provider, back);
      IsLoomterm(handler, provider) && handler != HookHandler(command, provider, env)
  {
    ContainsMiddle(front, Suffix(provider), back);
    assert "timeout" in HookHandler(command, provider, env).fields;
    assert "timeout" !in UsersHandler(front, provider, back).fields;
  }

  // ---------------------------------------------------------------------------------------------
  // Planning, step by step
  // ---------------------------------------------------------------------------------------------

  /** Looks at the handlers of one event, and whether Loomterm's are as wanted. */
  method Inspect(groups: seq<Json>, provider: Provider, desired: Json) returns (exact: bool, stale: bool)
    ensures exact <==> desired in OurHandlers(groups, provider)
    ensures stale <==> AnyOther(OurHandlers(groups, provider), desired)
  {
    exact, stale := false, false;
    for g := 0 to |groups|
      invariant exact <==> desired in OurHandlers(groups[..g], provider)
      invariant stale <==> AnyOther(OurHandlers(groups[..g], provider), desired)
    {
      assert groups[..g + 1][..g] == groups[..g];
      if Handlers(groups[g]).Some? {
        var handlers := Handlers(groups[g]).value;
        var exactHere, staleHere := InspectHandlers(handlers, provider, desired);
        AnyOtherJoins(OurHandlers(groups[..g], provider), Ours(handlers, provider), desired);
        exact, stale := exact || exactHere, stale || staleHere;
      }
    }
    assert groups[..|groups|] == groups;
  }

  method InspectHandlers(handlers: seq<Json>, provider: Provider, desired: Json) returns (exact: bool, stale: bool)
    ensures exact <==> desired in Ours(handlers, provider)
    ensures stale <==> AnyOther(Ours(handlers, provider), desired)
  {
    exact, stale := false, false;
    for h := 0 to |handlers|
      invariant exact <==> desired in Ours(handlers[..h], provider)
      invariant stale <==> AnyOther(Ours(handlers[..h], provider), desired)
    {
      assert handlers[..h + 1][..h] == handlers[..h];
      if IsLoomterm(handlers[h], provider) {
        AnyOtherJoins(Ours(handlers[..h], provider), [handlers[h]], desired);
        assert handlers[h] in [handlers[h]];
        if handlers[h] == desired {
          exact := true;
        } else {
          stale := true;
        }
      }
    }
    assert handlers[..|handlers|] == handlers;
  }

  /** The hooks after a look at the first i events, each of which now has an entry. */
  function Entered(hooks: Fields, events: seq<string>): Fields {
    if events == [] then hooks
    else
      var before, last := Entered(hooks, events[..|events| - 1]), events[|events| - 1];
      if last in before then before else before[last := Array([])]
  }

  lemma {:induction false} EnteredIsHarmless(hooks: Fields, events: seq<string>, event: string)
    ensures event in Entered(hooks, events) <==> event in hooks || event in events
    ensures event in hooks ==> Entered(hooks, events)[event] == hooks[event]
    ensures GroupsIn(Entered(hooks, events), event) == GroupsIn(hooks, event)
    decreases |events|
  {
    if events != [] {
      EnteredIsHarmless(hooks, events[..|events| - 1], event);
      assert event in events <==> event in events[..|events| - 1] || event == events[|events| - 1];
    }
  }

  ghost predicate Scanned(hooks: Fields, events: seq<string>, provider: Provider, desired: Json, exact: nat,
                          stale: bool)
  {
    && HaveGroups(hooks, events)
    && (stale <==> IsStale(hooks, events, provider, desired))
    && exact <= |events| && (exact == |events| <==> IsExact(hooks, events, provider, desired))
  }

  lemma ScanNext(hooks: Fields, events: seq<string>, event: string, provider: Provider, desired: Json, exact: nat,
                 stale: bool,
                 exactHere: bool, staleHere: bool)
    requires Scanned(hooks, events, provider, desired, exact, stale) && GroupsIn(hooks, event).Array?
    requires exactHere <==> desired in OurHandlers(Groups(hooks, event), provider)
    requires staleHere <==> AnyOther(OurHandlers(Groups(hooks, event), provider), desired)
    ensures Scanned(hooks, events + [event], provider, desired,
                    if exactHere then exact + 1 else exact, stale || staleHere)
  {
    assert forall e :: e in events + [event] <==> e in events || e == event;
    if staleHere { assert event in events + [event]; }
    if stale {
      var e :| e in events && AnyOther(OurHandlers(Groups(hooks, e), provider), desired);
      assert e in events + [event];
    }
  }

  /** The hooks with the first i events merged. */
  lemma MergedNext(hooks: Fields, events: seq<string>, event: string, provider: Provider, desired: Json)
    ensures var groups := MergedGroups(Groups(hooks, event), provider, desired);
      MergedHooks(hooks, events + [event], provider, desired)
        == MergedHooks(hooks, events, provider, desired)[event := Array(groups)]
  {
    assert forall e :: e in events + [event] <==> e in events || e == event;
  }

  lemma MergedEntered(hooks: Fields, events: seq<string>, provider: Provider, desired: Json)
    ensures MergedHooks(Entered(hooks, events), events, provider, desired)
      == MergedHooks(hooks, events, provider, desired)
  {
    forall event
      ensures event in Entered(hooks, events) <==> event in hooks || event in events
      ensures event in hooks ==> Entered(hooks, events)[event] == hooks[event]
      ensures GroupsIn(Entered(hooks, events), event) == GroupsIn(hooks, event)
    {
      EnteredIsHarmless(hooks, events, event);
    }
  }

  /** The groups of one event; an event without any gets an empty list. */
  method Enter(original: Fields, events: seq<string>, event: string, hooks: Fields)
    returns (groups: Json, entered: Fields)
    requires hooks == Entered(original, events)
    ensures entered == Entered(original, events + [event]) && groups == GroupsIn(original, event)
  {
    assert (events + [event])[..|events|] == events;
    EnteredIsHarmless(original, events, event);
    entered := if event in hooks then hooks else hooks[event := Array([])];
    groups := entered[event];
  }

  /** Checks every event of the provider and counts those that are exactly as wanted. */
  method Scan(original: Fields, events: seq<string>, provider: Provider, desired: Json)
    returns (ok: bool, hooks: Fields, exactEvents: nat, stale: bool)
    ensures ok <==> HaveGroups(original, events)
    ensures ok ==> hooks == Entered(original, events)
    ensures ok ==> Scanned(original, events, provider, desired, exactEvents, stale)
  {
    hooks, exactEvents, stale := original, 0, false;
    for i := 0 to |events|
      invariant hooks == Entered(original, events[..i])
      invariant Scanned(original, events[..i], provider, desired, exactEvents, stale)
    {
      assert events[..i + 1] == events[..i] + [events[i]];
      var groups;
      groups, hooks := Enter(original, events[..i], events[i], hooks);
      if !groups.Array? {
        return false, hooks, exactEvents, stale;
      }
      var exactHere, staleHere := Inspect(groups.items, provider, desired);
      ScanNext(original, events[..i], events[i], provider, desired, exactEvents, stale, exactHere, staleHere);
      exactEvents := if exactHere then exactEvents + 1 else exactEvents;
      stale := stale || staleHere;
    }
    assert events[..|events|] == events;
    return true, hooks, exactEvents, stale;
  }

  ghost predicate Distinct(events: seq<string>) {
    forall i, j | 0 <= i < j < |events| :: events[i] != events[j]
  }

  method Merge(original: Fields, events: seq<string>, provider: Provider, desired: Json) returns (hooks: Fields)
    requires Distinct(events) && HaveGroups(original, events) && forall event | event in events :: event in original
    ensures hooks == MergedHooks(original, events, provider, desired)
  {
    hooks := original;
    assert MergedHooks(original, events[..0], provider, desired) == original;
    for i := 0 to |events|
      invariant hooks == MergedHooks(original, events[..i], provider, desired)
    {
      assert events[..i + 1] == events[..i] + [events[i]];
      assert events[i] !in events[..i];
      MergedNext(original, events[..i], events[i], provider, desired);
      var groups := hooks[events[i]].items;
      groups := CleanedGroups(groups, provider);
      groups := groups + [NewGroup(desired)];
      hooks := hooks[events[i] := Array(groups)];
    }
    assert events[..|events|] == events;
  }

  lemma EventsAreDistinct(provider: Provider)
    ensures Distinct(Events(provider))
  {
  }

  lemma EnteredGroups(hooks: Fields, events: seq<string>)
    requires HaveGroups(hooks, events)
    ensures HaveGroups(Entered(hooks, events), events)
    ensures forall event | event in events :: event in Entered(hooks, events)
  {
    forall event | event in events
      ensures GroupsIn(Entered(hooks, events), event).Array? && event in Entered(hooks, events)
    {
      EnteredIsHarmless(hooks, events, event);
    }
  }

  method PlanDocument(root: Json, events: seq<string>, provider: Provider, desired: Json, force: bool)
    returns (r: Result<Plan>)
    requires Distinct(events)
    ensures r == PlannedFor(root, events, provider, desired, force)
  {
    if !root.Object? {
      return Err(Config);
    }
    var entry := if "hooks" in root.fields then root.fields["hooks"] else Object(map[]);
    if !entry.Object? {
      return Err(Config);
    }
    var ok, hooks, exactEvents, stale := Scan(entry.fields, events, provider, desired);
    if !ok {
      return Err(Config);
    }
    if stale && !force {
      return Err(Config);
    }
    if !stale && exactEvents == |events| {
      return Ok(Unchanged);
    }
    MergedEntered(entry.fields, events, provider, desired);
    EnteredGroups(entry.fields, events);
    hooks := Merge(hooks, events, provider, desired);
    var content := Object(root.fields["hooks" := Object(hooks)]);
    return Ok(if stale then Replace(content) else Create(content));
  }

  method PlanHooks(source: Option<Json>, command: string, provider: Provider, env: Environment, force: bool)
    returns (r: Result<Plan>)
    ensures r == Planned(source, provider, HookHandler(command, provider, env), force)
  {
    var root := if source.Some? then source.value else Object(map[]);
    EventsAreDistinct(provider);
    r := PlanDocument(root, Events(provider), provider, HookHandler(command, provider, env), force);
  }
}
