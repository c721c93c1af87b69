/** What each kind of event and each outcome of the agent comes to for the whole system, in terms of its fields and of
    the stream alone; and that every change of state is announced. */
module AgentReactions {
  import opened Events
  import opened AgentCore
  import opened AgentRuns
  import opened AgentRecalls
  import opened AgentHandshake

  /** An event of the controllers as it stands in the stream. */
  function Published(id: int, source: Source, body: Body): Event {
    Event(id, Some(source), None, None, false, None, body)
  }

  /** The stream with the notice of a state, if that is a change. */
  function WithNotice(log: seq<Event>, before: AgentState, after: AgentState): seq<Event> {
    if before == after then log else log + [Published(|log|, ENVIRONMENT, StateChanged(after))]
  }

  /** The history takes all events but notices, commands and null events. */
  function Recorded(history: seq<Event>, e: Event): seq<Event> {
    match e.body
    case ChangeState(_) => history
    case StateChanged(_) => history
    case NullAction => history
    case NullObservation => history
    case _ => history + [e]
  }

  /** The move delivers a visible event to the root controller. */
  predicate DeliversToRoot(s: System, m: Move) {
    Enabled(s, m) && m.Deliver? && s.child.None? && !s.parent.delegating && !s.log[s.next].hidden
  }

  /** The observation that answers the pending action, outside confirmation. */
  predicate AnswersPending(c: Core, e: Event) {
    e.IsObservation() && c.pending.Some? && e.cause == Some(c.pending.value.id) && c.state != AWAITING_USER_CONFIRMATION
  }

  // ---- events that settle the state ----

  lemma HiddenEventsDoNothing(s: System, m: Move)
    requires Enabled(s, m) && m.Deliver? && s.child.None? && s.log[s.next].hidden
    ensures Do(s, m) == s.(next := s.next + 1)
  {
  }

  /** The state that an event commands; it has no other effect than the history. */
  function Commanded(e: Event): Option<AgentState> {
    match e.body
    case Finish => Some(FINISHED)
    case Reject => Some(REJECTED)
    case ChangeState(target) =>
      if target in {STOPPED, ERROR, USER_CONFIRMED, USER_REJECTED} then None else Some(target)
    case Message(_, wait) => if e.source == Some(AGENT) && wait then Some(AWAITING_USER_INPUT) else None
    case _ => None
  }

  /** Finishing, rejecting, an agent message that waits, and a command for a state that neither halts nor decides. */
  lemma CommandsSettleTheState(s: System, m: Move)
    requires DeliversToRoot(s, m) && Commanded(s.log[s.next]).Some?
    ensures var (e, state) := (s.log[s.next], Commanded(s.log[s.next]).value);
            Do(s, m) == s.(next := s.next + 1, log := WithNotice(s.log, s.parent.state, state),
                           parent := s.parent.(state := state, history := Recorded(s.parent.history, e)))
  {
  }

  // ---- observations ----

  /** An answer frees the slot. A confirmed action lets the agent run, a rejected one makes it wait for the user. */
  lemma AnswersSettleTheState(s: System, m: Move)
    requires DeliversToRoot(s, m) && AnswersPending(s.parent, s.log[s.next])
    requires s.parent.state != RUNNING && s.parent.state != USER_CONFIRMED
    ensures var e := s.log[s.next];
            var state := if s.parent.state == USER_REJECTED then AWAITING_USER_INPUT else s.parent.state;
            Do(s, m) == s.(next := s.next + 1, log := WithNotice(s.log, s.parent.state, state),
                           parent := s.parent.(state := state, pending := None,
                                               history := Recorded(s.parent.history, e)))
  {
  }

  /** Where a confirmed or running agent is answered, what follows is what making it step does. */
  lemma AnswersMakeTheAgentGoOn(s: System, m: Move)
    requires DeliversToRoot(s, m) && AnswersPending(s.parent, s.log[s.next])
    requires s.parent.state == RUNNING || s.parent.state == USER_CONFIRMED
    ensures var e := s.log[s.next];
            var free := s.(next := s.next + 1, log := WithNotice(s.log, s.parent.state, RUNNING),
                           parent := s.parent.(state := RUNNING, pending := None,
                                               history := Recorded(s.parent.history, e)));
            Do(s, m) == if Wakes(e) then Do(free, Poke(m.env)) else free
  {
    hide Step;
  }

  // ---- events that make the agent step, and those that do not ----

  /** Apart from commands, user messages, delegation and loop recovery: what makes a waiting agent step. */
  predicate Wakes(e: Event) {
    match e.body
    case Condensation => true
    case CondensationRequest => true
    case Message(_, wait) => e.source != Some(USER) && !(wait && e.source == Some(AGENT))
    case DelegateObservation => true
    case ErrorObservation(_) => true
    case LoopDetection => true
    case OtherObservation => true
    case NullObservation => e.cause.Some? && e.cause.value > 0
    case _ => false
  }

  predicate Sleeps(e: Event) {
    match e.body
    case SystemMessage => true
    case Recall(_, _) => true
    case Runnable => true
    case NullAction => true
    case OtherAction => true
    case StateChanged(_) => true
    case NullObservation => e.cause.None? || e.cause.value <= 0
    case _ => false
  }

  lemma WakingEventsMakeTheAgentStep(s: System, m: Move)
    requires DeliversToRoot(s, m) && Wakes(s.log[s.next]) && !AnswersPending(s.parent, s.log[s.next])
    requires !(s.log[s.next].body.Message? && s.parent.state == AWAITING_USER_INPUT)
    ensures var recorded := s.(next := s.next + 1,
                               parent := s.parent.(history := Recorded(s.parent.history, s.log[s.next])));
            Do(s, m) == Do(recorded, Poke(m.env))
  {
    hide Step;
  }

  lemma OtherEventsAreOnlyRecorded(s: System, m: Move)
    requires DeliversToRoot(s, m) && Sleeps(s.log[s.next]) && !AnswersPending(s.parent, s.log[s.next])
    ensures Do(s, m) == s.(next := s.next + 1,
                           parent := s.parent.(history := Recorded(s.parent.history, s.log[s.next])))
  {
  }

  /** A user message: the recall goes into the stream and the slot, the agent runs, and nothing else happens. */
  lemma UserMessagesAreRecalled(s: System, m: Move)
    requires DeliversToRoot(s, m) && s.log[s.next].body.Message? && s.log[s.next].source == Some(USER)
    ensures var e := s.log[s.next];
            exists first: bool ::
              var recall := Published(|s.log|, USER, Recall(e.body.content, first));
              && Do(s, m).log == WithNotice(s.log + [recall], s.parent.state, RUNNING)
              && Do(s, m).parent == s.parent.(state := RUNNING, pending := Some(recall),
                                              history := Recorded(s.parent.history, e),
                                              cachedFirst := Do(s, m).parent.cachedFirst)
              && Do(s, m).child.None? && Do(s, m).next == s.next + 1
  {
    var recall := Do(s, m).log[|s.log|];
    assert recall == Published(|s.log|, USER, Recall(s.log[s.next].body.content, recall.body.workspaceContext));
  }

  // ---- delegation ----

  /** A delegate action starts a delegate on the same stream, without confirmation, with nothing in its history, and
      gives it its task; the parent waits. */
  lemma DelegatesAreTasked(s: System, m: Move)
    requires DeliversToRoot(s, m) && s.log[s.next].body.DelegateAction?
    ensures var (e, s') := (s.log[s.next], Do(s, m));
            var agent := m.env.delegateAgent;
            var log1 := if agent.systemMessage then s.log + [Published(|s.log|, AGENT, SystemMessage)] else s.log;
            && s'.parent == s.parent.(delegating := true, history := Recorded(s.parent.history, e))
            && s'.next == s.next + 1
            && s'.child == Some(Core(Config(agent, false, false, s.parent.cfg.hasAnalyzer, false),
                                     if e.body.task.Some? then RUNNING else LOADING,
                                     None, [], -1, None, |s.log|, None, NoError, false))
            && s'.log == (match e.body.task
                          case None => log1
                          case Some(task) =>
                            WithNotice(log1 + [Published(|log1|, USER, Message("TASK: " + task, false))],
                                       LOADING, RUNNING))
  {
  }

  /** The end of a delegate: it stops, and its result is the last event. */
  lemma DelegatesAreEnded(s: System, m: Move)
    requires Enabled(s, m) && m.Deliver? && s.child.Some? && Do(s, m).child.None?
    requires s.child.value.pending.None?
    ensures var closing := WithNotice(s.log, s.child.value.state, STOPPED);
            var result := Published(|closing|, AGENT, DelegateObservation).(tool := LastDelegateTool(s.parent.history));
            Do(s, m) == System(s.parent.(delegating := false), None, closing + [result], s.next + 1)
  {
    hide Handle;
  }

  // ---- outcomes of a step ----

  predicate MayAct(s: System) {
    s.parent.state == RUNNING && s.parent.pending.None?
  }

  /** What is kept of the result of the stuck detector. */
  function Noted(c: Core, env: Env): Core {
    if c.cfg.agent.stuckDetection then c.(stuck := env.stuck) else c
  }

  lemma NothingHappensOtherwise(s: System, m: Move)
    requires Enabled(s, m) && m.Poke? && !MayAct(s)
    ensures Do(s, m) == s
  {
  }

  /** An action of the agent is published, whatever its kind, unless it is the null action; a runnable one is held. */
  lemma ActionsArePublished(s: System, m: Move)
    requires Enabled(s, m) && m.Poke? && MayAct(s) && m.env.outcome.Act?
    requires m.env.outcome.action.id == INVALID_ID && m.env.outcome.action.confirmation != Some(AWAITING_CONFIRMATION)
    requires m.env.outcome.action.body.Runnable? ==> !Risky(s.parent.cfg, Steps(m.env))
    ensures var a := m.env.outcome.action;
            var out := a.(id := |s.log|, source := Some(m.env.outcome.origin));
            Do(s, m) ==
              if a.body.NullAction? then s.(parent := Noted(s.parent, m.env))
              else s.(log := s.log + [out],
                      parent := Noted(s.parent, m.env).(pending := if a.body.Runnable? then Some(out) else None))
  {
  }

  /** An action that already has an id is refused by the stream, which is a failure. */
  lemma ActionsWithAnIdAreRefused(s: System, m: Move)
    requires Enabled(s, m) && m.Poke? && MayAct(s) && m.env.outcome.Act?
    requires m.env.outcome.action.id != INVALID_ID && !m.env.outcome.action.body.NullAction?
    ensures Do(s, m).parent.state == ERROR && Do(s, m).parent.pending.None?
    ensures Do(s, m).parent.lastError == OtherFailure
    ensures Do(s, m).log != [] && Do(s, m).log[|Do(s, m).log| - 1].body == StateChanged(ERROR)
  {
  }

  /** An action that must be confirmed is announced as a question and published with the mark. */
  lemma RiskyActionsAreAsked(s: System, m: Move)
    requires Enabled(s, m) && m.Poke? && MayAct(s) && Risky(s.parent.cfg, Steps(m.env))
    requires m.env.outcome.action.body.Runnable? && m.env.outcome.action.id == INVALID_ID
    ensures var asking := WithNotice(s.log, RUNNING, AWAITING_USER_CONFIRMATION);
            var out := m.env.outcome.action.(id := |asking|, source := Some(m.env.outcome.origin),
                                             confirmation := Some(AWAITING_CONFIRMATION));
            Do(s, m) == s.(log := asking + [out],
                           parent := Noted(s.parent, m.env).(state := AWAITING_USER_CONFIRMATION, pending := Some(out)))
  {
  }

  /** Errors that the agent is told of leave it running. */
  lemma RecoverableErrorsArePublished(s: System, m: Move)
    requires Enabled(s, m) && m.Poke? && MayAct(s)
    requires m.env.outcome.RecoverableError? || (m.env.outcome.ContextOverflow? && s.parent.cfg.agent.historyTruncation)
    ensures var body := if m.env.outcome.RecoverableError? then ErrorObservation(OtherError) else CondensationRequest;
            Do(s, m) == s.(log := s.log + [Published(|s.log|, AGENT, body)], parent := Noted(s.parent, m.env))
  {
  }

  /** All other failures end in ERROR, or in RATE_LIMITED where someone is told. */
  lemma FailuresStopTheAgent(s: System, m: Move)
    requires Enabled(s, m) && m.Poke? && MayAct(s)
    requires !m.env.outcome.Act? && !m.env.outcome.RecoverableError?
    requires !(m.env.outcome.ContextOverflow? && s.parent.cfg.agent.historyTruncation)
    ensures var state := if m.env.outcome.RateLimited? && s.parent.cfg.hasStatusCallback then RATE_LIMITED else ERROR;
            var why := if m.env.outcome.IterationLimit? then IterationLimitReached else OtherFailure;
            Do(s, m) == s.(log := WithNotice(s.log, RUNNING, state),
                           parent := Noted(s.parent, m.env).(state := state, lastError := why))
  {
  }

  // ---- a finished task ----

  /** The agent's word to finish or reject, once issued, stands in the stream, and when it is delivered to the root
      controller the conversation is finished or rejected, whatever happened in between. */
  lemma IssuedEndIsReached(ss: seq<System>, ms: seq<Move>, i: nat, j: nat)
    requires IsRun(ss, ms) && i < j < |ms| && ms[i].Poke? && MayAct(ss[i])
    requires ms[i].env.outcome.Act? && (ms[i].env.outcome.action.body.Finish? || ms[i].env.outcome.action.body.Reject?)
    requires ms[i].env.outcome.action.id == INVALID_ID && ms[i].env.outcome.action.confirmation.None?
    requires ms[j].Deliver? && ss[j].next == |ss[i].log| && DeliversToRoot(ss[j], ms[j])
    ensures ss[j + 1].parent.state == if ms[i].env.outcome.action.body.Finish? then FINISHED else REJECTED
  {
    assert ss[i + 1] == Do(ss[i], ms[i]) && ss[j + 1] == Do(ss[j], ms[j]);
    hide Do;
    ActionsArePublished(ss[i], ms[i]);
    StreamOnlyGrows(ss, ms, i + 1, j);
    CommandsSettleTheState(ss[j], ms[j]);
  }

  // ---- loop recovery ----

  /** Without a stuck analysis, or with an unknown option, loop recovery does nothing. */
  lemma RecoveryNeedsAnAnalysis(s: System, m: Move)
    requires DeliversToRoot(s, m) && s.log[s.next].body.LoopRecovery?
    requires s.parent.stuck.None? || s.log[s.next].body.option !in {1, 2, 3}
    ensures Do(s, m) == s.(next := s.next + 1,
                           parent := s.parent.(history := Recorded(s.parent.history, s.log[s.next])))
  {
  }

  /** Plain recovery waits for the user and says so. */
  lemma RecoveryIsAnnounced(s: System, m: Move)
    requires DeliversToRoot(s, m) && s.log[s.next].body == LoopRecovery(1) && s.parent.stuck.Some?
    ensures var waiting := WithNotice(s.log, s.parent.state, AWAITING_USER_INPUT);
            Do(s, m).log == waiting + [Published(|waiting|, ENVIRONMENT, LoopDetection)]
  {
  }

  /** Starting again says so too, and then recalls the text of the last user message. */
  lemma RestartIsAnnounced(s: System, m: Move)
    requires DeliversToRoot(s, m) && s.log[s.next].body == LoopRecovery(2) && s.parent.stuck.Some?
    requires LastUserMessage(s.parent.history + [s.log[s.next]]).Some?
    ensures var running := WithNotice(s.log, s.parent.state, RUNNING);
            var said := running + [Published(|running|, ENVIRONMENT, LoopDetection)];
            var text := LastUserMessage(s.parent.history + [s.log[s.next]]).value.body.content;
            exists first: bool :: Do(s, m).log == said + [Published(|said|, USER, Recall(text, first))]
  {
    hide LastUserMessage, FirstUserMessage;
    var running := WithNotice(s.log, s.parent.state, RUNNING);
    var said := running + [Published(|running|, ENVIRONMENT, LoopDetection)];
    var recall := Do(s, m).log[|said|];
    var text := LastUserMessage(s.parent.history + [s.log[s.next]]).value.body.content;
    assert Do(s, m).log == said + [Published(|said|, USER, Recall(text, recall.body.workspaceContext))];
  }

  // ---- every change of state is announced ----

  /** Since the stream was `before`, the state was announced. */
  ghost predicate AnnouncedSince(before: seq<Event>, after: seq<Event>, state: AgentState) {
    exists i :: |before| <= i < |after| && after[i].body == StateChanged(state) && after[i].source == Some(ENVIRONMENT)
  }

  ghost predicate Announces(w: World, r: World) {
    w.log <= r.log && (r.core.state != w.core.state ==> AnnouncedSince(w.log, r.log, r.core.state))
  }

  lemma AnnouncesBoth(w: World, q: World, r: World)
    requires Announces(w, q) && Announces(q, r)
    ensures Announces(w, r)
  {
    if r.core.state == q.core.state != w.core.state {
      var i :| |w.log| <= i < |q.log| && q.log[i].body == StateChanged(q.core.state)
               && q.log[i].source == Some(ENVIRONMENT);
      assert r.log[i] == q.log[i];
    }
  }

  lemma SetStateAnnounces(w: World, state: AgentState)
    ensures Announces(w, SetState(w, state))
  {
    var r := SetState(w, state);
    if state != w.core.state {
      assert r.log[|r.log| - 1].body == StateChanged(state);
    }
  }

  /** Changes before and after the change of state that do not touch it. */
  lemma AnnouncesAround(w: World, v: World, state: AgentState, r: World)
    requires v.core.state == w.core.state && w.log <= v.log
    requires SetState(v, state).log <= r.log && r.core.state == SetState(v, state).core.state
    ensures Announces(w, r)
  {
    hide SetState;
    SetStateAnnounces(v, state);
    AnnouncesBoth(w, v, SetState(v, state));
    AnnouncesBoth(w, SetState(v, state), r);
  }

  lemma HandleMessageAnnounces(w: World, e: Event)
    ensures Announces(w, HandleMessage(w, e))
  {
    hide SetState;
    if e.source == Some(USER) && e.body.Message? {
      var first := if w.core.cachedFirst.Some? then w.core.cachedFirst else FirstUserMessage(w.log, w.core.startId);
      var recall := Stamped(w.log, Fresh(Recall(e.body.content, first.Some? && first.value.id == e.id)), USER);
      AnnouncesAround(w, World(w.core.(cachedFirst := first, pending := Some(recall)), w.log + [recall]), RUNNING,
                      HandleMessage(w, e));
    } else {
      SetStateAnnounces(w, AWAITING_USER_INPUT);
    }
  }

  lemma RecoveryAnnounces(w: World, option: int)
    ensures Announces(w, HandleLoopRecovery(w, option))
  {
    hide SetState, HandleMessage;
    SetStateAnnounces(w, STOPPED);
    if w.core.stuck.Some? {
      var cut := World(Truncate(w.core, w.core.stuck.value), w.log);
      AnnouncesAround(w, cut, AWAITING_USER_INPUT, PerformLoopRecovery(w, w.core.stuck.value));
      var last := LastUserMessage(w.core.history);
      if last.Some? {
        var w1 := SetState(cut, RUNNING);
        var w2 := World(w1.core, Emit(w1.log, Fresh(LoopDetection), ENVIRONMENT));
        var again := Fresh(Message(last.value.body.content, false)).(source := Some(USER));
        AnnouncesAround(w, cut, RUNNING, w2);
        HandleMessageAnnounces(w2, again);
        AnnouncesBoth(w, w2, HandleMessage(w2, again));
      }
    }
  }

  lemma HandleObservationAnnounces(w: World, e: Event)
    ensures Announces(w, HandleObservation(w, e))
  {
    hide SetState;
    var w1 := World(w.core.(pending := None), w.log);
    AnnouncesAround(w, w1, RUNNING, SetState(w1, RUNNING));
    AnnouncesAround(w, w1, AWAITING_USER_INPUT, SetState(w1, AWAITING_USER_INPUT));
  }

  lemma StartDelegateGrows(w: World, task: Option<string>, agent: AgentConfig)
    ensures Announces(w, StartDelegate(w, task, agent).0)
  {
    hide SetState;
    var log1 := if agent.systemMessage then Emit(w.log, Fresh(SystemMessage), AGENT) else w.log;
    if task.Some? {
      var started := World(NewDelegate(w, agent), Emit(log1, Fresh(Message("TASK: " + task.value, false)), USER));
      SetStateAnnounces(started, RUNNING);
    }
  }

  lemma AbsorbAnnounces(w: World, e: Event, env: Env)
    ensures Announces(w, Absorb(w, e, env).0)
  {
    hide SetState, HandleMessage, HandleObservation, HandleLoopRecovery, StartDelegate;
    var w1 := World(AddHistory(w.core, e), w.log);
    match e.body
    case ChangeState(target) => AnnouncesAround(w, w1, target, SetState(w1, target));
    case Message(_, _) =>
      HandleMessageAnnounces(w1, e);
      AnnouncesBoth(w, w1, HandleMessage(w1, e));
    case DelegateAction(task) =>
      StartDelegateGrows(w1, task, env.delegateAgent);
      AnnouncesBoth(w, w1, StartDelegate(w1, task, env.delegateAgent).0);
    case Finish => AnnouncesAround(w, w1, FINISHED, SetState(w1, FINISHED));
    case Reject => AnnouncesAround(w, w1, REJECTED, SetState(w1, REJECTED));
    case LoopRecovery(option) =>
      RecoveryAnnounces(w1, option);
      AnnouncesBoth(w, w1, HandleLoopRecovery(w1, option));
    case _ =>
      HandleObservationAnnounces(w1, e);
      AnnouncesBoth(w, w1, HandleObservation(w1, e));
  }

  lemma FailAnnounces(w: World, v: World, why: LastError)
    requires Announces(w, v)
    ensures Announces(w, Fail(v, why))
  {
    hide SetState;
    var v1 := World(v.core.(lastError := why), v.log);
    AnnouncesAround(v, v1, ERROR, SetState(v1, ERROR));
    AnnouncesBoth(w, v, Fail(v, why));
  }

  lemma IssueAnnounces(w: World, a: Event, origin: Source)
    ensures Announces(w, Issue(w, a, origin))
  {
    hide SetState, Fail;
    var w1 := if a.body.Runnable? then World(w.core.(pending := Some(a)), w.log) else w;
    AnnouncesAround(w, w1, AWAITING_USER_CONFIRMATION, SetState(w1, AWAITING_USER_CONFIRMATION));
    var w2 := if a.confirmation == Some(AWAITING_CONFIRMATION) then SetState(w1, AWAITING_USER_CONFIRMATION) else w1;
    FailAnnounces(w, w2, OtherFailure);
    AnnouncesBoth(w, w2, World(w2.core, w2.log + [Stamped(w2.log, a, origin)]));
  }

  lemma StepAnnounces(w: World, env: Env)
    ensures Announces(w, Step(w, env))
  {
    hide SetState, Issue, Fail;
    var stuck := if w.core.cfg.agent.stuckDetection then env.stuck else w.core.stuck;
    var w1 := World(w.core.(stuck := stuck), w.log);
    FailAnnounces(w, w1, OtherFailure);
    FailAnnounces(w, w1, IterationLimitReached);
    var told := World(w1.core.(lastError := OtherFailure), w1.log);
    AnnouncesAround(w, told, RATE_LIMITED, SetState(told, RATE_LIMITED));
    if env.outcome.Act? {
      var a := Guarded(w1.core.cfg, env.outcome.action, env.outcome.risk);
      IssueAnnounces(w1, a, env.outcome.origin);
      AnnouncesBoth(w, w1, Issue(w1, a, env.outcome.origin));
    }
  }

  lemma TurnAnnounces(w: World, t: Turn)
    requires !t.Others? && !t.Resumes?
    ensures Announces(w, Take(w, t))
  {
    hide SetState, Absorb, Step, ShouldStep;
    match t
    case Handles(e, env) =>
      AbsorbAnnounces(w, e, env);
      StepAnnounces(Absorb(w, e, env).0, env);
      AnnouncesBoth(w, Absorb(w, e, env).0, Step(Absorb(w, e, env).0, env));
    case SetTo(state) => SetStateAnnounces(w, state);
    case Steps(env) => StepAnnounces(w, env);
  }

  /** In every run of the system a move that changes the state of the root controller, or of a delegate that lives
      on, announces the new state in the stream. */
  lemma StateChangesAreAnnounced(ss: seq<System>, ms: seq<Move>, k: nat)
    requires IsRun(ss, ms) && k < |ms|
    ensures ss[k + 1].parent.state != ss[k].parent.state ==>
              AnnouncedSince(ss[k].log, ss[k + 1].log, ss[k + 1].parent.state)
    ensures ss[k].child.Some? && ss[k + 1].child.Some? && ss[k + 1].child.value.state != ss[k].child.value.state ==>
              AnnouncedSince(ss[k].log, ss[k + 1].log, ss[k + 1].child.value.state)
  {
    assert ss[k + 1] == Do(ss[k], ms[k]);
    hide Do, Handle, SetState, Step;
    ParentTakesTurns(ss[k], ms[k]);
    var t := ParentTurn(ss[k], ms[k]);
    if !t.Others? && !t.Resumes? {
      TurnAnnounces(ParentWorld(ss[k]), t);
    }
    if ss[k].child.Some? && ss[k + 1].child.Some? {
      ChildTakesTurns(ss[k], ms[k]);
      if ms[k].Deliver? {
        TurnAnnounces(ChildWorld(ss[k]), ChildTurn(ss[k], ms[k]));
      }
    }
  }
}
