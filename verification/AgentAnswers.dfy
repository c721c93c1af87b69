/** Resets and the tool calls they interrupt: one reset answers its pending action, and over a whole run
    no action is answered twice by a synthetic error. */
module AgentAnswers {
  import opened Events
  import opened AgentCore
  import opened AgentRuns
  import opened AgentRecalls

  // ---- one reset ----

  /** Entering STOPPED or ERROR with an action pending leaves that action's tool call answered: by an
      observation already in the history, or by exactly one new error of the kind of the state entered. */
  lemma ResetAnswersThePendingAction(w: World, s: AgentState)
    requires Halting(s) && s != w.core.state && w.core.pending.Some?
    ensures var p := w.core.pending.value;
            var r := SetState(w, s);
            && r.core.pending.None?
            && Answered(w.core.history + r.log[|w.log|..], p.tool)
            && (Answered(w.core.history, p.tool) ==>
                  |r.log| == |w.log| + 1 && r.log[..|w.log|] == w.log && !r.log[|w.log|].IsSynthetic())
            && (!Answered(w.core.history, p.tool) ==>
                  && |r.log| == |w.log| + 2 && r.log[..|w.log|] == w.log
                  && r.log[|w.log|].body ==
                       ErrorObservation(if s == STOPPED then NotExecutedStopped else NotExecutedError)
                  && r.log[|w.log|].tool == p.tool && r.log[|w.log|].cause == Some(p.id)
                  && !r.log[|w.log| + 1].IsSynthetic())
  {
    var p := w.core.pending.value;
    var r := SetState(w, s);
    var seen := w.core.history + r.log[|w.log|..];
    if Answered(w.core.history, p.tool) {
      var i :| 0 <= i < |w.core.history| && w.core.history[i].IsObservation() && w.core.history[i].tool == p.tool;
      assert seen[i] == w.core.history[i];
    } else {
      assert seen[|w.core.history|] == r.log[|w.log|];
    }
  }

  // ---- every reset of a run ----

  /** The tool call is answered by an observation in the history, or by one published since. */
  ghost predicate LeavesAnswered(before: seq<Event>, history: seq<Event>, after: seq<Event>, tool: Option<ToolCall>) {
    before <= after && Answered(history + after[|before|..], tool)
  }

  lemma AnsweredStays(history: seq<Event>, more: seq<Event>, tool: Option<ToolCall>)
    requires Answered(history, tool)
    ensures Answered(history + more, tool)
  {
    var i :| 0 <= i < |history| && history[i].IsObservation() && history[i].tool == tool;
    assert (history + more)[i] == history[i];
  }

  lemma SetStateAnswers(w: World, s: AgentState)
    requires Halting(s) && s != w.core.state && w.core.pending.Some?
    ensures LeavesAnswered(w.log, SetState(w, s).core.history, SetState(w, s).log, w.core.pending.value.tool)
  {
    ResetAnswersThePendingAction(w, s);
    SetStateFollows(w, s);
  }

  lemma RecoveryStops(w: World, option: int)
    requires var r := HandleLoopRecovery(w, option).core.state; Halting(r) && r != w.core.state
    ensures HandleLoopRecovery(w, option) == SetState(w, STOPPED)
  {
    hide SetState;
  }

  /** An event that makes the agent enter STOPPED or ERROR before it may step. */
  lemma AbsorbResets(w: World, e: Event, env: Env)
    requires w.core.pending.Some? && !ReleasedByAnswer(w, Handles(e, env)) && !e.hidden
    requires var r := Absorb(w, e, env).0.core.state; Halting(r) && r != w.core.state
    ensures var r := Absorb(w, e, env).0; LeavesAnswered(w.log, r.core.history, r.log, w.core.pending.value.tool)
  {
    hide SetState, HandleLoopRecovery;
    var w1 := World(AddHistory(w.core, e), w.log);
    match e.body
    case ChangeState(target) => SetStateAnswers(w1, target);
    case LoopRecovery(option) =>
      RecoveryStops(w1, option);
      SetStateAnswers(w1, STOPPED);
    case _ =>
  }

  lemma UserMessageRuns(w: World, e: Event, env: Env)
    requires ReleasedByUserMessage(w, Handles(e, env))
    ensures var r := Absorb(w, e, env).0.core; r.state == RUNNING && r.pending.Some?
  {
    hide SetState;
  }

  lemma StepKeepsHistory(w: World, env: Env)
    ensures Step(w, env).core.history == w.core.history
  {
    hide SetState;
  }

  lemma AbsorbRecords(w: World, e: Event, env: Env)
    requires !e.hidden && Answers(w.core, e)
    ensures Absorb(w, e, env).0.core.history == AddHistory(w.core, e).history
  {
    hide SetState;
  }

  /** The turn first frees the pending action by an observation that names its id but another tool call, or that the
      history does not keep. */
  predicate FreedByAnother(w: World, t: Turn) {
    ReleasedByAnswer(w, t) && (t.e.tool != w.core.pending.value.tool || !InHistory(t.e))
  }

  /** A turn that resets while an action is pending leaves its tool call answered, unless it freed the action before
      by such an observation. */
  lemma ResetTurnAnswers(w: World, t: Turn)
    requires ReleasedByReset(w, t) && w.core.pending.Some?
    ensures var (r, tool) := (Take(w, t), w.core.pending.value.tool);
            !FreedByAnother(w, t) ==> LeavesAnswered(w.log, r.core.history, r.log, tool)
  {
    hide SetState, Absorb, Step, ShouldStep, HandleLoopRecovery, LeavesAnswered;
    match t
    case SetTo(s) => SetStateAnswers(w, s);
    case Steps(env) => NoStepWhilePending(w, env);
    case Handles(e, env) => HandledResetAnswers(w, e, env);
    case _ =>
  }

  lemma NoStepWhilePending(w: World, env: Env)
    requires w.core.pending.Some? || w.core.state != RUNNING
    ensures Step(w, env) == w
  {
  }

  lemma HandledResetAnswers(w: World, e: Event, env: Env)
    requires ReleasedByReset(w, Handles(e, env)) && w.core.pending.Some?
    ensures var (r, tool) := (Handle(w, e, env).0, w.core.pending.value.tool);
            !FreedByAnother(w, Handles(e, env)) ==> LeavesAnswered(w.log, r.core.history, r.log, tool)
  {
    hide SetState, Absorb, Step, ShouldStep, HandleLoopRecovery, ReleasedByUserMessage, Holds;
    var tool := w.core.pending.value.tool;
    var wa := Absorb(w, e, env).0;
    if ReleasedByUserMessage(w, Handles(e, env)) {
      UserMessageRuns(w, e, env);
      NoStepWhilePending(wa, env);
    } else if ReleasedByAnswer(w, Handles(e, env)) {
      if e.tool == tool && InHistory(e) {
        AbsorbRecords(w, e, env);
        StepKeepsHistory(wa, env);
        var h := w.core.history + [e];
        assert Answered(h, tool) by { assert h[|h| - 1] == e; }
        HandleTidies(w, e, env);
        AnsweredStays(h, Handle(w, e, env).0.log[|w.log|..], tool);
      }
    } else {
      AbsorbHolds(w, e, env, w.core.pending.value) by { assert Holds(w, w.core.pending.value) by { HoldsItself(w); } }
      HoldsPending(wa, w.core.pending.value);
      NoStepAfter(wa, env);
      if Halting(wa.core.state) && wa.core.state != w.core.state {
        AbsorbResets(w, e, env);
      }
    }
  }

  lemma HoldsItself(w: World)
    requires w.core.pending.Some?
    ensures Holds(w, w.core.pending.value)
  {
  }

  lemma HoldsPending(w: World, p: Event)
    ensures Holds(w, p) ==> w.core.pending.Some?
  {
  }

  lemma NoStepAfter(w: World, env: Env)
    ensures w.core.pending.Some? || Halting(w.core.state) ==> Step(w, env) == w
  {
  }

  /** In every run of the system each reset of the root controller leaves the interrupted tool call answered. */
  lemma RootResetsAnswer(ss: seq<System>, ms: seq<Move>, k: nat)
    requires IsRun(ss, ms) && k < |ms|
    requires ReleasedByReset(ParentWorld(ss[k]), ParentTurn(ss[k], ms[k])) && ss[k].parent.pending.Some?
    ensures var (t, tool) := (ParentTurn(ss[k], ms[k]), ss[k].parent.pending.value.tool);
            !FreedByAnother(ParentWorld(ss[k]), t) ==>
              LeavesAnswered(ss[k].log, ss[k + 1].parent.history, ss[k + 1].log, tool)
  {
    assert ss[k + 1] == Do(ss[k], ms[k]);
    hide Take, Do, ReleasedByReset, ParentTurn, LeavesAnswered;
    ParentTakesTurns(ss[k], ms[k]);
    ResetTurnAnswers(ParentWorld(ss[k]), ParentTurn(ss[k], ms[k]));
  }

  /** And so does each reset of a delegate, while it lives and when it ends. */
  lemma DelegateResetsAnswer(ss: seq<System>, ms: seq<Move>, k: nat)
    requires IsRun(ss, ms) && k < |ms| && ss[k].child.Some? && ss[k].child.value.pending.Some?
    requires ss[k + 1].child.Some? ==> ReleasedByReset(ChildWorld(ss[k]), ChildTurn(ss[k], ms[k]))
    requires ss[k + 1].child.None? ==> ss[k].child.value.state != STOPPED
    ensures var (t, tool) := (ChildTurn(ss[k], ms[k]), ss[k].child.value.pending.value.tool);
            if ss[k + 1].child.None?
            then LeavesAnswered(ss[k].log, ss[k].child.value.history, ss[k + 1].log, tool)
            else !FreedByAnother(ChildWorld(ss[k]), t) ==>
                   LeavesAnswered(ss[k].log, ss[k + 1].child.value.history, ss[k + 1].log, tool)
  {
    assert ss[k + 1] == Do(ss[k], ms[k]);
    if ss[k + 1].child.Some? {
      hide Take, Do, ReleasedByReset, ChildTurn, LeavesAnswered;
      ChildTakesTurns(ss[k], ms[k]);
      ResetTurnAnswers(ChildWorld(ss[k]), ChildTurn(ss[k], ms[k]));
    } else {
      EndAnswers(ss[k], ms[k]);
    }
  }

  lemma EndAnswers(s: System, m: Move)
    requires Enabled(s, m) && s.child.Some? && Do(s, m).child.None?
    requires s.child.value.pending.Some? && s.child.value.state != STOPPED
    ensures LeavesAnswered(s.log, s.child.value.history, Do(s, m).log, s.child.value.pending.value.tool)
  {
    hide SetState, Handle;
    var child := s.child.value;
    SetStateAnswers(ChildWorld(s), STOPPED);
    var log := SetState(ChildWorld(s), STOPPED).log;
    var result := Stamped(log, Fresh(DelegateObservation).(tool := LastDelegateTool(s.parent.history)), AGENT);
    AnsweredStays(child.history + log[|s.log|..], [result], child.pending.value.tool);
    assert (log + [result])[|s.log|..] == log[|s.log|..] + [result];
    assert child.history + log[|s.log|..] + [result] == child.history + (log + [result])[|s.log|..];
  }

  // ---- what a reset writes ----

  /** A reset with nothing pending writes no synthetic error. */
  lemma EmptyResetIsSilent(w: World, s: AgentState)
    requires w.core.pending.None? && s != w.core.state
    ensures SetState(w, s).log == w.log + [Stamped(w.log, Fresh(StateChanged(s)), ENVIRONMENT)]
  {
  }

  /** The note in the source that recall actions need no error does not describe the code: a recall
      action has no tool call, and its reset is silent exactly when some observation in the history has
      none either. */
  lemma RecallResetIsSilentIff(w: World, s: AgentState)
    requires Halting(s) && s != w.core.state
    requires w.core.pending.Some? && w.core.pending.value.body.Recall? && w.core.pending.value.tool.None?
    ensures (forall i :: |w.log| <= i < |SetState(w, s).log| ==> !SetState(w, s).log[i].IsSynthetic()) <==>
            (exists i :: 0 <= i < |w.core.history| && w.core.history[i].IsObservation() && w.core.history[i].tool.None?)
  {
    ResetAnswersThePendingAction(w, s);
    if !Answered(w.core.history, None) {
      assert SetState(w, s).log[|w.log|].IsSynthetic();
    }
  }

  /** A new conversation in which the first user message was just published. */
  function FirstMessage(cfg: Config, text: string): World {
    World(Core(cfg, LOADING, None, [], -1, None, 0, None, NoError, false),
          [Fresh(Message(text, false)).(id := 0, source := Some(USER))])
  }

  lemma FirstMessageStartsARecall(cfg: Config, text: string, env: Env)
    ensures var w := FirstMessage(cfg, text);
            var r := Handle(w, w.log[0], env).0.core;
            && r.state == RUNNING && r.history == [w.log[0]]
            && r.pending.Some? && r.pending.value.body.Recall? && r.pending.value.tool.None?
  {
    hide SetState;
  }

  /** The shortest conversation that shows it: one user message, then the stop button. */
  lemma StopAfterFirstMessageReportsTheRecall(cfg: Config, text: string, env: Env)
    ensures var first := FirstMessage(cfg, text);
            var w := Handle(first, first.log[0], env).0;
            var r := SetState(w, STOPPED);
            && w.core.pending.Some? && w.core.pending.value.body.Recall?
            && |r.log| > |w.log| && r.log[|w.log|].body == ErrorObservation(NotExecutedStopped)
            && r.log[|w.log|].cause == Some(w.core.pending.value.id)
  {
    hide Handle, SetState;
    var first := FirstMessage(cfg, text);
    FirstMessageStartsARecall(cfg, text, env);
    ResetAnswersThePendingAction(Handle(first, first.log[0], env).0, STOPPED);
  }

  // ---- whole runs: at most one synthetic error for each pending action ----

  predicate Unanswered(log: seq<Event>, id: int) {
    forall i :: 0 <= i < |log| && log[i].IsSynthetic() ==> log[i].cause != Some(id)
  }

  /** No two synthetic errors report the same action, and each reports one that is in the stream. */
  predicate AnsweredOnce(log: seq<Event>) {
    && (forall i :: 0 <= i < |log| && log[i].IsSynthetic() ==> log[i].cause.Some? && 0 <= log[i].cause.value < |log|)
    && (forall i, j :: 0 <= i < j < |log| && log[i].IsSynthetic() && log[j].IsSynthetic() ==>
          log[i].cause != log[j].cause)
  }

  predicate Open(log: seq<Event>, id: int) {
    0 <= id < |log| && Unanswered(log, id)
  }

  predicate Sound(w: World) {
    AnsweredOnce(w.log) &&
    (w.core.pending.Some? ==> Open(w.log, w.core.pending.value.id) && w.core.pending.value.IsAction())
  }

  /** `q` is an open action of some other controller. */
  predicate OpenElsewhere(w: World, q: int) {
    Open(w.log, q) && (w.core.pending.Some? ==> w.core.pending.value.id != q)
  }

  ghost predicate Keeps(w: World, r: World) {
    Sound(r) && forall q :: OpenElsewhere(w, q) ==> OpenElsewhere(r, q)
  }

  lemma PublishKeeps(w: World, e: Event, source: Source)
    requires Sound(w) && !e.IsSynthetic()
    ensures Keeps(w, World(w.core, Emit(w.log, e, source)))
    ensures e.IsAction() ==>
              Keeps(w, World(w.core.(pending := Some(Stamped(w.log, e, source))), Emit(w.log, e, source)))
  {
    assert Unanswered(w.log, |w.log|);
  }

  lemma ResetKeeps(w: World)
    requires Sound(w)
    ensures Keeps(w, Reset(w))
  {
    if w.core.pending.Some? {
      var e := SyntheticError(w.core.state, w.core.pending.value);
      assert Emit(w.log, e, AGENT)[|w.log|].cause == Some(w.core.pending.value.id);
    }
  }

  lemma SetStateKeeps(w: World, s: AgentState)
    requires Sound(w)
    ensures Keeps(w, SetState(w, s))
  {
    if s != w.core.state {
      var w1 := World(w.core.(state := s), w.log);
      assert Keeps(w, w1);
      if Halting(s) {
        ResetKeeps(w1);
        PublishKeeps(Reset(w1), Fresh(StateChanged(s)), ENVIRONMENT);
      } else if w1.core.pending.Some? && (s == USER_CONFIRMED || s == USER_REJECTED) {
        var p := w1.core.pending.value.(confirmation := Some(Mark(s)));
        PublishKeeps(w1, p, AGENT);
        PublishKeeps(Republish(w1, s), Fresh(StateChanged(s)), ENVIRONMENT);
      } else {
        PublishKeeps(w1, Fresh(StateChanged(s)), ENVIRONMENT);
      }
    }
  }

  lemma HandleMessageKeeps(w: World, e: Event)
    requires Sound(w)
    ensures Keeps(w, HandleMessage(w, e))
  {
    hide SetState;
    if e.source == Some(USER) && e.body.Message? {
      var first := if w.core.cachedFirst.Some? then w.core.cachedFirst else FirstUserMessage(w.log, w.core.startId);
      var isFirst := first.Some? && first.value.id == e.id;
      var recall := Fresh(Recall(e.body.content, isFirst));
      PublishKeeps(w, recall, USER);
      var p := Stamped(w.log, recall, USER);
      SetStateKeeps(World(w.core.(cachedFirst := first, pending := Some(p)), w.log + [p]), RUNNING);
    } else {
      SetStateKeeps(w, AWAITING_USER_INPUT);
    }
  }

  lemma HandleObservationKeeps(w: World, e: Event)
    requires Sound(w)
    ensures Keeps(w, HandleObservation(w, e))
  {
    hide SetState;
    var w1 := World(w.core.(pending := None), w.log);
    SetStateKeeps(w1, RUNNING);
    SetStateKeeps(w1, AWAITING_USER_INPUT);
  }

  lemma PerformLoopRecoveryKeeps(w: World, point: nat)
    requires Sound(w)
    ensures Keeps(w, PerformLoopRecovery(w, point))
  {
    hide SetState;
    var w0 := World(Truncate(w.core, point), w.log);
    SetStateKeeps(w0, AWAITING_USER_INPUT);
    PublishKeeps(SetState(w0, AWAITING_USER_INPUT), Fresh(LoopDetection), ENVIRONMENT);
  }

  lemma HandleLoopRecoveryKeeps(w: World, option: int)
    requires Sound(w)
    ensures Keeps(w, HandleLoopRecovery(w, option))
  {
    hide SetState, PerformLoopRecovery, HandleMessage;
    if w.core.stuck.Some? {
      var point := w.core.stuck.value;
      PerformLoopRecoveryKeeps(w, point);
      SetStateKeeps(w, STOPPED);
      var last := LastUserMessage(w.core.history);
      if option == 2 && last.Some? {
        var w0 := World(Truncate(w.core, point), w.log);
        SetStateKeeps(w0, RUNNING);
        var w1 := SetState(w0, RUNNING);
        PublishKeeps(w1, Fresh(LoopDetection), ENVIRONMENT);
        HandleMessageKeeps(World(w1.core, Emit(w1.log, Fresh(LoopDetection), ENVIRONMENT)),
                           Fresh(Message(last.value.body.content, false)).(source := Some(USER)));
      }
    }
  }

  lemma StartDelegateKeeps(w: World, task: Option<string>, agent: AgentConfig)
    requires Sound(w)
    ensures var (w', child) := StartDelegate(w, task, agent);
            Keeps(w, w') && Sound(World(child, w'.log)) && child.pending.None?
  {
    hide SetState;
    var c := NewDelegate(w, agent);
    var log1 := if agent.systemMessage then Emit(w.log, Fresh(SystemMessage), AGENT) else w.log;
    PublishKeeps(w, Fresh(SystemMessage), AGENT);
    if task.Some? {
      var m := Fresh(Message("TASK: " + task.value, false));
      PublishKeeps(World(w.core, log1), m, USER);
      var started := World(c, Emit(log1, m, USER));
      SetStateKeeps(started, RUNNING);
      // the delegate's first state change leaves the actions of its parent open
      assert forall q :: OpenElsewhere(World(w.core, started.log), q) ==> OpenElsewhere(started, q);
      assert w.core.pending.Some? ==> OpenElsewhere(started, w.core.pending.value.id);
    }
  }

  predicate FreshEnv(env: Env) {
    env.outcome.Act? ==> env.outcome.action.id == INVALID_ID
  }

  lemma IssueKeeps(w: World, a: Event, origin: Source)
    requires Sound(w) && a.id == INVALID_ID && a.IsAction() && w.core.pending.None?
    ensures Keeps(w, Issue(w, a, origin))
  {
    SetStateKeeps(w, AWAITING_USER_CONFIRMATION);
    var w2 := if a.confirmation == Some(AWAITING_CONFIRMATION) then SetState(w, AWAITING_USER_CONFIRMATION) else w;
    PublishKeeps(w2, a, origin);
  }

  lemma FailKeeps(w: World, why: LastError)
    requires Sound(w)
    ensures Keeps(w, Fail(w, why))
  {
    hide SetState;
    SetStateKeeps(World(w.core.(lastError := why), w.log), ERROR);
  }

  lemma StepKeeps(w: World, env: Env)
    requires Sound(w) && EnvOk(env) && FreshEnv(env)
    ensures Keeps(w, Step(w, env))
  {
    hide SetState, Issue, Fail;
    if MayStep(w.core) {
      var stuck := if w.core.cfg.agent.stuckDetection then env.stuck else w.core.stuck;
      var w1 := World(w.core.(stuck := stuck), w.log);
      assert Keeps(w, w1);
      match env.outcome
      case RecoverableError => PublishKeeps(w1, Fresh(ErrorObservation(OtherError)), AGENT);
      case ContextOverflow =>
        PublishKeeps(w1, Fresh(CondensationRequest), AGENT);
        FailKeeps(w1, OtherFailure);
      case RateLimited =>
        SetStateKeeps(World(w1.core.(lastError := OtherFailure), w1.log), RATE_LIMITED);
        FailKeeps(w1, OtherFailure);
      case Act(a, origin, risk) => IssueKeeps(w1, Guarded(w1.core.cfg, a, risk), origin);
      case IterationLimit => FailKeeps(w1, IterationLimitReached);
      case _ => FailKeeps(w1, OtherFailure);
    }
  }

  lemma AbsorbKeeps(w: World, e: Event, env: Env)
    requires Sound(w)
    ensures var (w', child) := Absorb(w, e, env);
            Keeps(w, w') && (child.Some? ==> Sound(World(child.value, w'.log)) && child.value.pending.None?)
  {
    hide SetState, HandleMessage, HandleObservation, HandleLoopRecovery, StartDelegate;
    var w1 := World(AddHistory(w.core, e), w.log);
    match e.body
    case ChangeState(target) => SetStateKeeps(w1, target);
    case Message(_, _) => HandleMessageKeeps(w1, e);
    case DelegateAction(task) => StartDelegateKeeps(w1, task, env.delegateAgent);
    case Finish => SetStateKeeps(w1, FINISHED);
    case Reject => SetStateKeeps(w1, REJECTED);
    case LoopRecovery(option) => HandleLoopRecoveryKeeps(w1, option);
    case _ => HandleObservationKeeps(w1, e);
  }

  lemma HandleKeeps(w: World, e: Event, env: Env)
    requires Sound(w) && EnvOk(env) && FreshEnv(env)
    ensures var (w', child) := Handle(w, e, env);
            Keeps(w, w') && (child.Some? ==> Sound(World(child.value, w'.log)) && child.value.pending.None?)
  {
    hide Absorb, Step, ShouldStep;
    AbsorbKeeps(w, e, env);
    var (w1, child) := Absorb(w, e, env);
    if !e.hidden && ShouldStep(w1.core, e) {
      StepKeeps(w1, env);
    }
  }

  predicate Healthy(s: System) {
    && Sound(ParentWorld(s))
    && (s.child.Some? ==>
          && Sound(ChildWorld(s))
          && (s.child.value.pending.Some? ==> OpenElsewhere(ParentWorld(s), s.child.value.pending.value.id))
          && (s.parent.pending.Some? ==> OpenElsewhere(ChildWorld(s), s.parent.pending.value.id)))
  }

  /** The assumptions on the surroundings: only a reset writes the two synthetic errors, and actions come
      without an id, as the agent and the decoder of recorded trajectories make them. */
  predicate Honest(m: Move) {
    match m
    case Deliver(env) => FreshEnv(env)
    case Publish(e, _) => !e.IsSynthetic()
    case Command(_) => true
    case Poke(env) => FreshEnv(env)
  }

  /** A new conversation meets the assumptions of the run theorems. */
  lemma NewConversationIsHealthy(cfg: Config)
    ensures var s := NewSystem(cfg); Healthy(s) && RoutingAgrees(s) && SystemAgrees(s)
  {
  }

  lemma MoveKeepsHealthy(s: System, m: Move)
    requires Enabled(s, m) && Honest(m) && Healthy(s)
    ensures Healthy(Do(s, m))
  {
    hide SetState, Handle, Step, Fail, LastDelegateTool;
    match m
    case Publish(e, source) =>
      PublishKeeps(ParentWorld(s), e, source);
      if s.child.Some? { PublishKeeps(ChildWorld(s), e, source); }
    case Command(st) => SetStateKeeps(ParentWorld(s), st);
    case Poke(env) => StepKeeps(ParentWorld(s), env);
    case Deliver(env) =>
      if s.child.None? {
        HandleKeeps(ParentWorld(s), s.log[s.next], env);
      } else if Forwards(s.child.value) {
        HandleKeeps(ChildWorld(s), s.log[s.next], env);
      } else {
        SetStateKeeps(ChildWorld(s), STOPPED);
        var w := SetState(ChildWorld(s), STOPPED);
        PublishKeeps(w, Fresh(DelegateObservation).(tool := LastDelegateTool(s.parent.history)), AGENT);
      }
  }

  /** In every run no action, of the root controller or of a delegate, is reported twice as not executed,
      and the two pending slots never hold an action that was. */
  lemma {:induction false} AnsweredAtMostOnce(ss: seq<System>, ms: seq<Move>, k: nat)
    requires IsRun(ss, ms) && k < |ss| && Healthy(ss[0])
    requires forall i :: 0 <= i < |ms| ==> Honest(ms[i])
    ensures Healthy(ss[k]) && AnsweredOnce(ss[k].log)
  {
    hide Do, Enabled, Honest, AnsweredOnce, Open, OpenElsewhere;
    if k > 0 {
      AnsweredAtMostOnce(ss, ms, k - 1);
      MoveKeepsHealthy(ss[k - 1], ms[k - 1]);
      assert ss[k] == Do(ss[k - 1], ms[k - 1]);
    }
  }
}
