/** What one handler of the agent controller does, as functions on the values it reads and writes.
    `World` is a controller together with the event stream it publishes to. The class in
    AgentController.dfy carries these out in place; AgentRuns.dfy proves what whole runs keep. */
module AgentCore {
  import opened Events

  /** The settings of an agent that its controller consults. */
  datatype AgentConfig = AgentConfig(cliMode: bool, historyTruncation: bool, stuckDetection: bool,
                                     systemMessage: bool)

  datatype Config = Config(agent: AgentConfig, stateConfirmation: bool, askConfirmation: bool,
                           hasAnalyzer: bool, hasStatusCallback: bool)

  /** What the routing of events to a delegate looks for in the text of the last error. */
  datatype LastError = NoError | IterationLimitReached | OtherFailure

  datatype Core = Core(cfg: Config, state: AgentState, pending: Option<Event>, history: seq<Event>,
                       endId: int, cachedFirst: Option<Event>, startId: nat, stuck: Option<nat>,
                       lastError: LastError, delegating: bool)

  datatype World = World(core: Core, log: seq<Event>)

  datatype Risk = UNKNOWN | LOW | MEDIUM | HIGH

  /** How one call of the agent (or one replayed action) turns out. */
  datatype Outcome =
    | StuckInLoop
    | IterationLimit
    | BudgetLimit
    | RecoverableError
    | ContextOverflow
    | Fatal
    | RateLimited
    | Act(action: Event, origin: Source, risk: Risk)

  /** Everything a handler may ask of its surroundings while it handles one event. */
  datatype Env = Env(stuck: Option<nat>, outcome: Outcome, delegateAgent: AgentConfig)

  // ---- the event stream ----

  function Stamped(log: seq<Event>, e: Event, source: Source): Event {
    e.(id := |log|, source := Some(source))
  }

  function Emit(log: seq<Event>, e: Event, source: Source): seq<Event> {
    log + [Stamped(log, e, source)]
  }

  function FirstUserMessage(log: seq<Event>, start: nat): Option<Event>
    decreases |log| - start
  {
    if start >= |log| then None
    else if log[start].IsUserMessage() then Some(log[start])
    else FirstUserMessage(log, start + 1)
  }

  // ---- history ----

  /** The history filter: bookkeeping events and hidden events never enter the history. */
  predicate InHistory(e: Event) {
    !e.body.NullAction? && !e.body.NullObservation? && !e.body.ChangeState? && !e.body.StateChanged? && !e.hidden
  }

  function AddHistory(c: Core, e: Event): Core {
    if InHistory(e) then c.(history := c.history + [e]) else c
  }

  function Truncate(c: Core, point: nat): Core {
    if point >= |c.history| then c
    else
      var kept := c.history[..point];
      c.(history := kept, endId := if kept == [] then -1 else kept[|kept| - 1].id, cachedFirst := None)
  }

  predicate Answered(history: seq<Event>, tool: Option<ToolCall>) {
    exists i :: 0 <= i < |history| && history[i].IsObservation() && history[i].tool == tool
  }

  function LastUserMessage(history: seq<Event>): (r: Option<Event>)
    ensures r.Some? ==> r.value.IsUserMessage() && r.value in history
  {
    if history == [] then None
    else if history[|history| - 1].IsUserMessage() then Some(history[|history| - 1])
    else LastUserMessage(history[..|history| - 1])
  }

  /** The tool call of the newest delegate action; none when there is no such action. */
  function LastDelegateTool(history: seq<Event>): Option<ToolCall> {
    if history == [] then None
    else if history[|history| - 1].body.DelegateAction? then history[|history| - 1].tool
    else LastDelegateTool(history[..|history| - 1])
  }

  // ---- state changes ----

  function SyntheticError(state: AgentState, p: Event): Event {
    Fresh(ErrorObservation(if state == STOPPED then NotExecutedStopped else NotExecutedError))
      .(tool := p.tool, cause := Some(p.id))
  }

  function Reset(w: World): World {
    var log' :=
      if w.core.pending.Some? && !Answered(w.core.history, w.core.pending.value.tool)
      then Emit(w.log, SyntheticError(w.core.state, w.core.pending.value), AGENT)
      else w.log;
    World(w.core.(pending := None), log')
  }

  predicate Halting(s: AgentState) {
    s == STOPPED || s == ERROR
  }

  function Mark(s: AgentState): Confirmation {
    if s == USER_CONFIRMED then CONFIRMED else DECLINED
  }

  /** A confirmed or rejected pending action is marked and published again under a new id. */
  function Republish(w: World, s: AgentState): World {
    if w.core.pending.Some? && (s == USER_CONFIRMED || s == USER_REJECTED) then
      var p := Stamped(w.log, w.core.pending.value.(confirmation := Some(Mark(s))), AGENT);
      World(w.core.(pending := Some(p)), w.log + [p])
    else w
  }

  /** Only the state and the slot of the controller change; entering STOPPED or ERROR empties the slot. */
  function SetState(w: World, s: AgentState): (r: World)
    ensures r.core == w.core.(state := s, pending := r.core.pending)
    ensures s == w.core.state ==> r == w
    ensures s != w.core.state && Halting(s) ==> r.core.pending.None?
    ensures !Halting(s) ==> (r.core.pending.Some? <==> w.core.pending.Some?)
    ensures s != USER_CONFIRMED && s != USER_REJECTED && !Halting(s) ==> r.core.pending == w.core.pending
    ensures r.core.pending.Some? && r.core.pending != w.core.pending ==>
              r.core.pending.value == w.core.pending.value.(id := |w.log|, source := Some(AGENT),
                                                            confirmation := Some(Mark(s)))
    ensures s != w.core.state && (s == USER_CONFIRMED || s == USER_REJECTED) && r.core.pending.Some? ==>
              r.core.pending.value.confirmation == Some(Mark(s))
  {
    if s == w.core.state then w
    else
      var w1 := World(w.core.(state := s), w.log);
      var w2 := if Halting(s) then Reset(w1) else w1;
      var w3 := Republish(w2, s);
      World(w3.core, Emit(w3.log, Fresh(StateChanged(s)), ENVIRONMENT))
  }

  function Fail(w: World, why: LastError): World {
    SetState(World(w.core.(lastError := why), w.log), ERROR)
  }

  // ---- handlers ----

  function HandleMessage(w: World, e: Event): World {
    if e.source == Some(USER) && e.body.Message? then
      var first := if w.core.cachedFirst.Some? then w.core.cachedFirst else FirstUserMessage(w.log, w.core.startId);
      var isFirst := first.Some? && first.value.id == e.id;
      var recall := Stamped(w.log, Fresh(Recall(e.body.content, isFirst)), USER);
      SetState(World(w.core.(cachedFirst := first, pending := Some(recall)), w.log + [recall]), RUNNING)
    else if e.source == Some(AGENT) && e.body.Message? && e.body.waitForResponse then
      SetState(w, AWAITING_USER_INPUT)
    else w
  }

  /** The observation that answers the pending action, in a state where the answer counts. */
  predicate Answers(c: Core, e: Event) {
    e.IsObservation() && c.pending.Some? && e.cause == Some(c.pending.value.id)
    && c.state != AWAITING_USER_CONFIRMATION
  }

  function HandleObservation(w: World, e: Event): World {
    if Answers(w.core, e) then
      var w1 := World(w.core.(pending := None), w.log);
      if w.core.state == USER_CONFIRMED then SetState(w1, RUNNING)
      else if w.core.state == USER_REJECTED then SetState(w1, AWAITING_USER_INPUT)
      else w1
    else w
  }

  function PerformLoopRecovery(w: World, point: nat): World {
    var w1 := SetState(World(Truncate(w.core, point), w.log), AWAITING_USER_INPUT);
    World(w1.core, Emit(w1.log, Fresh(LoopDetection), ENVIRONMENT))
  }

  function RestartWithLastUserMessage(w: World, point: nat): World {
    var last := LastUserMessage(w.core.history);
    if last.Some? then
      var w1 := SetState(World(Truncate(w.core, point), w.log), RUNNING);
      var w2 := World(w1.core, Emit(w1.log, Fresh(LoopDetection), ENVIRONMENT));
      HandleMessage(w2, Fresh(Message(last.value.body.content, false)).(source := Some(USER)))
    else PerformLoopRecovery(w, point)
  }

  function HandleLoopRecovery(w: World, option: int): World {
    if w.core.stuck.None? then w
    else if option == 1 then PerformLoopRecovery(w, w.core.stuck.value)
    else if option == 2 then RestartWithLastUserMessage(w, w.core.stuck.value)
    else if option == 3 then SetState(w, STOPPED)
    else w
  }

  /** A delegate inherits neither the confirmation settings nor the status callback. */
  function DelegateConfig(parent: Config, agent: AgentConfig): Config {
    Config(agent, false, false, parent.hasAnalyzer, false)
  }

  function NewDelegate(w: World, agent: AgentConfig): Core {
    Core(DelegateConfig(w.core.cfg, agent), LOADING, None, [], -1, None, |w.log|, None, NoError, false)
  }

  function StartDelegate(w: World, task: Option<string>, agent: AgentConfig): (World, Core) {
    var log1 := if agent.systemMessage then Emit(w.log, Fresh(SystemMessage), AGENT) else w.log;
    var child := World(NewDelegate(w, agent), log1);
    var child' :=
      if task.Some?
      then SetState(World(child.core, Emit(child.log, Fresh(Message("TASK: " + task.value, false)), USER)), RUNNING)
      else child;
    (World(w.core.(delegating := true), child'.log), child'.core)
  }

  function HandleAction(w: World, e: Event, env: Env): (World, Option<Core>)
    requires e.IsAction()
  {
    match e.body
    case ChangeState(target) => (SetState(w, target), None)
    case Message(_, _) => (HandleMessage(w, e), None)
    case DelegateAction(task) =>
      var (w', child) := StartDelegate(w, task, env.delegateAgent);
      (w', Some(child))
    case Finish => (SetState(w, FINISHED), None)
    case Reject => (SetState(w, REJECTED), None)
    case LoopRecovery(option) => (HandleLoopRecovery(w, option), None)
    case _ => (w, None)
  }

  // ---- stepping ----

  predicate ShouldStep(c: Core, e: Event) {
    !c.delegating &&
    if e.IsAction() then
      || e.IsUserMessage()
      || (e.body.Message? && c.state != AWAITING_USER_INPUT)
      || e.body.DelegateAction? || e.body.Condensation? || e.body.CondensationRequest?
    else if e.body.NullObservation? && e.cause.Some? && e.cause.value > 0 then true
    else !e.body.StateChanged? && !e.body.NullObservation?
  }

  predicate MustConfirm(cfg: Config, e: Event, risk: Risk) {
    var effective := if cfg.hasAnalyzer then risk else UNKNOWN;
    e.body.Runnable? && cfg.stateConfirmation &&
    (cfg.agent.cliMode ||
     ((effective == HIGH || (effective == UNKNOWN && !cfg.hasAnalyzer)) && cfg.askConfirmation))
  }

  function Guarded(cfg: Config, e: Event, risk: Risk): Event {
    if MustConfirm(cfg, e, risk) then e.(confirmation := Some(AWAITING_CONFIRMATION)) else e
  }

  /** Publishing an action that already has an id raises, which ends in ERROR. */
  function Issue(w: World, a: Event, origin: Source): World {
    var w1 := if a.body.Runnable? then World(w.core.(pending := Some(a)), w.log) else w;
    if a.body.NullAction? then w1
    else
      var w2 := if a.confirmation == Some(AWAITING_CONFIRMATION) then SetState(w1, AWAITING_USER_CONFIRMATION) else w1;
      if a.id != INVALID_ID then Fail(w2, OtherFailure)
      else
        var out := Stamped(w2.log, a, origin);
        World(if a.body.Runnable? then w2.core.(pending := Some(out)) else w2.core, w2.log + [out])
  }

  predicate MayStep(c: Core) {
    c.state == RUNNING && c.pending.None?
  }

  function Step(w: World, env: Env): World {
    if !MayStep(w.core) then w
    else if w.core.cfg.agent.stuckDetection && env.outcome.StuckInLoop? then
      Fail(World(w.core.(stuck := env.stuck), w.log), OtherFailure)
    else
      var w1 := if w.core.cfg.agent.stuckDetection then World(w.core.(stuck := env.stuck), w.log) else w;
      match env.outcome
      case IterationLimit => Fail(w1, IterationLimitReached)
      case RecoverableError => World(w1.core, Emit(w1.log, Fresh(ErrorObservation(OtherError)), AGENT))
      case ContextOverflow =>
        if w1.core.cfg.agent.historyTruncation then World(w1.core, Emit(w1.log, Fresh(CondensationRequest), AGENT))
        else Fail(w1, OtherFailure)
      case RateLimited =>
        if w1.core.cfg.hasStatusCallback then SetState(World(w1.core.(lastError := OtherFailure), w1.log), RATE_LIMITED)
        else Fail(w1, OtherFailure)
      case Act(a, origin, risk) => Issue(w1, Guarded(w1.core.cfg, a, risk), origin)
      case _ => Fail(w1, OtherFailure)
  }

  /** The part of the handler that comes before the decision to step. */
  function Absorb(w: World, e: Event, env: Env): (World, Option<Core>) {
    var w1 := World(AddHistory(w.core, e), w.log);
    if e.IsAction() then HandleAction(w1, e, env) else (HandleObservation(w1, e), None)
  }

  function Handle(w: World, e: Event, env: Env): (World, Option<Core>) {
    if e.hidden then (w, None)
    else
      var (w1, child) := Absorb(w, e, env);
      (if ShouldStep(w1.core, e) then Step(w1, env) else w1, child)
  }

  // ---- a controller and its delegate on one stream ----

  /** `next` is the position of the first event that has not been delivered yet. */
  datatype System = System(parent: Core, child: Option<Core>, log: seq<Event>, next: nat)

  predicate Forwards(child: Core) {
    !(child.state in {FINISHED, ERROR, REJECTED}) || child.lastError == IterationLimitReached
  }

  function EndDelegate(s: System): System
    requires s.child.Some?
  {
    var w := SetState(World(s.child.value, s.log), STOPPED);
    var result := Fresh(DelegateObservation).(tool := LastDelegateTool(s.parent.history));
    System(s.parent.(delegating := false), None, Emit(w.log, result, AGENT), s.next)
  }

  function OnEvent(s: System, e: Event, env: Env): System {
    if s.child.Some? then
      if Forwards(s.child.value) then
        var (w, _) := Handle(World(s.child.value, s.log), e, env);
        System(s.parent, Some(w.core), w.log, s.next)
      else EndDelegate(s)
    else
      var (w, child) := Handle(World(s.parent, s.log), e, env);
      System(w.core, child, w.log, s.next)
  }

  /** What can happen to the system: the next event is delivered, somebody else publishes an event,
      the session sets the state of the root controller or makes it step. */
  datatype Move =
    | Deliver(env: Env)
    | Publish(event: Event, source: Source)
    | Command(state: AgentState)
    | Poke(env: Env)

  predicate EnvOk(env: Env) {
    env.outcome.Act? ==> env.outcome.action.IsAction()
  }

  predicate Enabled(s: System, m: Move) {
    match m
    case Deliver(env) => s.next < |s.log| && EnvOk(env)
    case Publish(e, _) => e.id == INVALID_ID
    case Command(_) => true
    case Poke(env) => EnvOk(env)
  }

  function Do(s: System, m: Move): System
    requires Enabled(s, m)
  {
    match m
    case Deliver(env) => OnEvent(s.(next := s.next + 1), s.log[s.next], env)
    case Publish(e, source) => s.(log := Emit(s.log, e, source))
    case Command(st) => var w := SetState(World(s.parent, s.log), st); s.(parent := w.core, log := w.log)
    case Poke(env) => var w := Step(World(s.parent, s.log), env); s.(parent := w.core, log := w.log)
  }

  /** A new conversation. */
  function NewSystem(cfg: Config): System {
    System(Core(cfg, LOADING, None, [], -1, None, 0, None, NoError, false), None, [], 0)
  }

  /** A sequence of moves; one that is not possible when its time comes is skipped. */
  function DoAll(s: System, ms: seq<Move>): System {
    if ms == [] then s
    else
      var s', last := DoAll(s, ms[..|ms| - 1]), ms[|ms| - 1];
      if Enabled(s', last) then Do(s', last) else s'
  }
}
