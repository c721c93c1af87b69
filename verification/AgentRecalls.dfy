/** Which kind of recall a user message triggers: the one for the workspace context, or the one for knowledge
    only. It depends on a cached first user message, which stays right over whole runs. */
module AgentRecalls {
  import opened Events
  import opened AgentCore
  import opened AgentRuns

  // ---- one message ----

  predicate IdsArePositions(log: seq<Event>) {
    forall i :: 0 <= i < |log| ==> log[i].id == i
  }

  lemma {:induction false} FirstUserMessageIsFirst(log: seq<Event>, start: nat, at: nat)
    requires start <= at < |log| && log[at].IsUserMessage() && IdsArePositions(log)
    ensures FirstUserMessage(log, start).Some?
    ensures FirstUserMessage(log, start).value.id == at <==> forall i :: start <= i < at ==> !log[i].IsUserMessage()
    decreases at - start
  {
    if !log[start].IsUserMessage() {
      FirstUserMessageIsFirst(log, start + 1, at);
    }
  }

  predicate CacheAgrees(w: World) {
    w.core.cachedFirst.Some? ==> w.core.cachedFirst == FirstUserMessage(w.log, w.core.startId)
  }

  /** The recall for a user message asks for the workspace context exactly when no user message came
      before it. */
  lemma RecallKindMatchesPosition(w: World, at: nat)
    requires IdsArePositions(w.log) && CacheAgrees(w) && w.core.startId <= at < |w.log| && w.log[at].IsUserMessage()
    ensures var r := HandleMessage(w, w.log[at]);
            && r.core.pending.Some?
            && r.core.pending.value.body ==
                 Recall(w.log[at].body.content, forall i :: w.core.startId <= i < at ==> !w.log[i].IsUserMessage())
  {
    FirstUserMessageIsFirst(w.log, w.core.startId, at);
  }

  // ---- the cache and the ids over whole runs ----

  /** Nothing that was published changes, and every event sits at the position its id names. */
  ghost predicate Grows(before: seq<Event>, after: seq<Event>) {
    before <= after && (IdsArePositions(before) ==> IdsArePositions(after))
  }

  lemma EmitGrows(log: seq<Event>, e: Event, source: Source)
    ensures Grows(log, Emit(log, e, source))
  {
  }

  lemma {:induction false} FirstUserMessageIsStable(before: seq<Event>, after: seq<Event>, start: nat)
    requires before <= after && FirstUserMessage(before, start).Some?
    ensures FirstUserMessage(after, start) == FirstUserMessage(before, start)
    decreases |before| - start
  {
    if !before[start].IsUserMessage() {
      FirstUserMessageIsStable(before, after, start + 1);
    }
  }

  predicate Tidy(w: World) {
    IdsArePositions(w.log) && CacheAgrees(w)
  }

  /** The cache is kept or dropped while the stream grows. */
  ghost predicate Follows(w: World, r: World) {
    && Grows(w.log, r.log) && r.core.startId == w.core.startId
    && (r.core.cachedFirst == w.core.cachedFirst || r.core.cachedFirst.None?)
  }

  lemma FollowingIsTidy(w: World, r: World)
    requires Tidy(w) && Follows(w, r)
    ensures Tidy(r)
  {
    if r.core.cachedFirst.Some? {
      FirstUserMessageIsStable(w.log, r.log, w.core.startId);
    }
  }

  lemma SetStateFollows(w: World, s: AgentState)
    ensures Follows(w, SetState(w, s))
  {
  }

  /** A handler that keeps worlds tidy and only adds to the stream. */
  ghost predicate Tidies(w: World, r: World) {
    Grows(w.log, r.log) && r.core.startId == w.core.startId && (Tidy(w) ==> Tidy(r))
  }

  lemma FollowingTidies(w: World, r: World)
    requires Follows(w, r)
    ensures Tidies(w, r)
  {
    if Tidy(w) {
      FollowingIsTidy(w, r);
    }
  }

  lemma SetStateTidies(w: World, s: AgentState)
    ensures Tidies(w, SetState(w, s))
  {
    hide SetState;
    SetStateFollows(w, s);
    FollowingTidies(w, SetState(w, s));
  }

  lemma HandleMessageTidies(w: World, e: Event)
    ensures Tidies(w, HandleMessage(w, e))
  {
    hide SetState;
    SetStateTidies(w, AWAITING_USER_INPUT);
    if e.source == Some(USER) && e.body.Message? {
      var first := if w.core.cachedFirst.Some? then w.core.cachedFirst else FirstUserMessage(w.log, w.core.startId);
      var isFirst := first.Some? && first.value.id == e.id;
      var recall := Stamped(w.log, Fresh(Recall(e.body.content, isFirst)), USER);
      var cached := World(w.core.(cachedFirst := first, pending := Some(recall)), w.log);
      EmitGrows(w.log, Fresh(Recall(e.body.content, isFirst)), USER);
      FollowingTidies(cached, World(cached.core, w.log + [recall]));
      SetStateTidies(World(cached.core, w.log + [recall]), RUNNING);
    }
  }

  lemma PerformLoopRecoveryFollows(w: World, point: nat)
    ensures Follows(w, PerformLoopRecovery(w, point))
  {
    hide SetState;
    var w0 := World(Truncate(w.core, point), w.log);
    SetStateFollows(w0, AWAITING_USER_INPUT);
    EmitGrows(SetState(w0, AWAITING_USER_INPUT).log, Fresh(LoopDetection), ENVIRONMENT);
  }

  lemma HandleLoopRecoveryTidies(w: World, option: int)
    ensures Tidies(w, HandleLoopRecovery(w, option))
  {
    hide SetState, PerformLoopRecovery, HandleMessage;
    if w.core.stuck.Some? {
      var point := w.core.stuck.value;
      PerformLoopRecoveryFollows(w, point);
      FollowingTidies(w, PerformLoopRecovery(w, point));
      SetStateTidies(w, STOPPED);
      var last := LastUserMessage(w.core.history);
      if option == 2 && last.Some? {
        var w0 := World(Truncate(w.core, point), w.log);
        SetStateFollows(w0, RUNNING);
        var w1 := SetState(w0, RUNNING);
        EmitGrows(w1.log, Fresh(LoopDetection), ENVIRONMENT);
        var w2 := World(w1.core, Emit(w1.log, Fresh(LoopDetection), ENVIRONMENT));
        FollowingTidies(w, w2);
        HandleMessageTidies(w2, Fresh(Message(last.value.body.content, false)).(source := Some(USER)));
      }
    }
  }

  lemma StartDelegateTidies(w: World, task: Option<string>, agent: AgentConfig)
    ensures var (w', child) := StartDelegate(w, task, agent);
            Follows(w, w') && (IdsArePositions(w.log) ==> Tidy(World(child, w'.log)))
  {
    hide SetState;
    var log1 := if agent.systemMessage then Emit(w.log, Fresh(SystemMessage), AGENT) else w.log;
    if task.Some? {
      var started := World(NewDelegate(w, agent), Emit(log1, Fresh(Message("TASK: " + task.value, false)), USER));
      SetStateTidies(started, RUNNING);
      SetStateFollows(started, RUNNING);
    }
  }

  lemma StepFollows(w: World, env: Env)
    ensures Follows(w, Step(w, env))
  {
    hide SetState, Issue, Fail;
    var stuck := if w.core.cfg.agent.stuckDetection then env.stuck else w.core.stuck;
    var w1 := World(w.core.(stuck := stuck), w.log);
    EmitGrows(w1.log, Fresh(ErrorObservation(OtherError)), AGENT);
    EmitGrows(w1.log, Fresh(CondensationRequest), AGENT);
    FailFollows(w1, OtherFailure);
    FailFollows(w1, IterationLimitReached);
    SetStateFollows(World(w1.core.(lastError := OtherFailure), w1.log), RATE_LIMITED);
    if env.outcome.Act? {
      IssueFollows(w1, Guarded(w1.core.cfg, env.outcome.action, env.outcome.risk), env.outcome.origin);
    }
  }

  lemma FailFollows(w: World, why: LastError)
    ensures Follows(w, Fail(w, why))
  {
    hide SetState;
    SetStateFollows(World(w.core.(lastError := why), w.log), ERROR);
  }

  lemma IssueFollows(w: World, a: Event, origin: Source)
    ensures Follows(w, Issue(w, a, origin))
  {
    hide SetState, Fail;
    var w1 := if a.body.Runnable? then World(w.core.(pending := Some(a)), w.log) else w;
    SetStateFollows(w1, AWAITING_USER_CONFIRMATION);
    var w2 := if a.confirmation == Some(AWAITING_CONFIRMATION) then SetState(w1, AWAITING_USER_CONFIRMATION) else w1;
    FailFollows(w2, OtherFailure);
    EmitGrows(w2.log, a, origin);
  }

  lemma HandleObservationTidies(w: World, e: Event)
    ensures Tidies(w, HandleObservation(w, e))
  {
    hide SetState;
    var w1 := World(w.core.(pending := None), w.log);
    SetStateTidies(w1, RUNNING);
    SetStateTidies(w1, AWAITING_USER_INPUT);
  }

  lemma AbsorbTidies(w: World, e: Event, env: Env)
    ensures var (w', child) := Absorb(w, e, env);
            Tidies(w, w') && (Tidy(w) && child.Some? ==> Tidy(World(child.value, w'.log)))
  {
    hide SetState, HandleMessage, HandleObservation, HandleLoopRecovery, StartDelegate;
    var w1 := World(AddHistory(w.core, e), w.log);
    match e.body
    case ChangeState(target) => SetStateTidies(w1, target);
    case Message(_, _) => HandleMessageTidies(w1, e);
    case DelegateAction(task) =>
      StartDelegateTidies(w1, task, env.delegateAgent);
      FollowingTidies(w1, StartDelegate(w1, task, env.delegateAgent).0);
    case Finish => SetStateTidies(w1, FINISHED);
    case Reject => SetStateTidies(w1, REJECTED);
    case LoopRecovery(option) => HandleLoopRecoveryTidies(w1, option);
    case _ => HandleObservationTidies(w1, e);
  }

  lemma StepTidies(w: World, env: Env)
    ensures Tidies(w, Step(w, env))
  {
    hide Step;
    StepFollows(w, env);
    FollowingTidies(w, Step(w, env));
  }

  lemma HandleTidies(w: World, e: Event, env: Env)
    ensures var (w', child) := Handle(w, e, env);
            Tidies(w, w') && (Tidy(w) && child.Some? ==> Tidy(World(child.value, w'.log)))
  {
    hide Absorb, Step, ShouldStep, Tidy;
    AbsorbTidies(w, e, env);
    var (w1, child) := Absorb(w, e, env);
    StepTidies(w1, env);
    if Tidy(w) && child.Some? {
      StepFollows(w1, env);
      FollowingIsTidy(World(child.value, w1.log), World(child.value, Step(w1, env).log));
    }
  }

  lemma MoveGrowsStream(s: System, m: Move)
    requires Enabled(s, m)
    ensures Grows(s.log, Do(s, m).log)
  {
    hide SetState, Handle, Step, Tidy, LastDelegateTool;
    match m
    case Publish(e, source) => EmitGrows(s.log, e, source);
    case Command(st) => SetStateTidies(ParentWorld(s), st);
    case Poke(env) => StepTidies(ParentWorld(s), env);
    case Deliver(env) =>
      if s.child.None? {
        HandleTidies(ParentWorld(s), s.log[s.next], env);
      } else if Forwards(s.child.value) {
        HandleTidies(ChildWorld(s), s.log[s.next], env);
      } else {
        SetStateTidies(ChildWorld(s), STOPPED);
        var w := SetState(ChildWorld(s), STOPPED);
        EmitGrows(w.log, Fresh(DelegateObservation).(tool := LastDelegateTool(s.parent.history)), AGENT);
      }
  }

  /** Nothing that was published is ever lost or changed. */
  lemma {:induction false} StreamOnlyGrows(ss: seq<System>, ms: seq<Move>, i: nat, j: nat)
    requires IsRun(ss, ms) && i <= j < |ss|
    ensures ss[i].log <= ss[j].log
  {
    hide Do;
    if i < j {
      StreamOnlyGrows(ss, ms, i, j - 1);
      MoveGrowsStream(ss[j - 1], ms[j - 1]);
      assert ss[j] == Do(ss[j - 1], ms[j - 1]);
    }
  }

  /** Both controllers are tidy, and the root controller looks at the stream from its start. */
  predicate SystemTidy(s: System) {
    Tidy(ParentWorld(s)) && s.parent.startId == 0 && (s.child.Some? ==> Tidy(ChildWorld(s)))
  }

  lemma OtherStaysTidy(w: World, log: seq<Event>)
    requires Tidy(w) && w.log <= log && IdsArePositions(log)
    ensures Tidy(World(w.core, log))
  {
    FollowingIsTidy(w, World(w.core, log));
  }

  lemma MoveKeepsTidy(s: System, m: Move)
    requires Enabled(s, m) && SystemTidy(s)
    ensures SystemTidy(Do(s, m))
  {
    hide SetState, Handle, Step, FirstUserMessage, LastDelegateTool;
    MoveGrowsStream(s, m);
    if s.child.Some? && !m.Deliver? { OtherStaysTidy(ChildWorld(s), Do(s, m).log); }
    match m
    case Publish(e, source) => OtherStaysTidy(ParentWorld(s), Do(s, m).log);
    case Command(st) => SetStateTidies(ParentWorld(s), st);
    case Poke(env) => StepTidies(ParentWorld(s), env);
    case Deliver(env) =>
      if s.child.None? {
        HandleTidies(ParentWorld(s), s.log[s.next], env);
      } else {
        OtherStaysTidy(ParentWorld(s), Do(s, m).log);
        if Forwards(s.child.value) {
          HandleTidies(ChildWorld(s), s.log[s.next], env);
        }
      }
  }

  lemma {:induction false} AlwaysTidy(ss: seq<System>, ms: seq<Move>, k: nat)
    requires IsRun(ss, ms) && SystemTidy(ss[0]) && k < |ss|
    ensures SystemTidy(ss[k])
  {
    hide Do, SystemTidy;
    if k > 0 {
      AlwaysTidy(ss, ms, k - 1);
      MoveKeepsTidy(ss[k - 1], ms[k - 1]);
      assert ss[k] == Do(ss[k - 1], ms[k - 1]);
    }
  }

  lemma MessagePublishesARecall(w: World, e: Event, env: Env)
    requires !e.hidden && e.IsUserMessage()
    ensures var r := HandleMessage(World(AddHistory(w.core, e), w.log), e);
            && r.core.pending.Some? && |r.log| > |w.log| && r.log[|w.log|] == r.core.pending.value
            && Handle(w, e, env).0.log == r.log
  {
  }

  /** In every run of a new conversation the root controller answers a user message with a recall, and asks for
      the workspace context exactly if no user message was published before. */
  lemma RecallKindInEveryRun(ss: seq<System>, ms: seq<Move>, k: nat)
    requires IsRun(ss, ms) && SystemTidy(ss[0]) && k < |ms|
    requires ms[k].Deliver? && ss[k].child.None?
    requires var e := ss[k].log[ss[k].next]; !e.hidden && e.IsUserMessage()
    ensures var (before, e) := (ss[k], ss[k].log[ss[k].next]);
            && |ss[k + 1].log| > |before.log|
            && ss[k + 1].log[|before.log|].body ==
                 Recall(e.body.content, forall i :: 0 <= i < before.next ==> !before.log[i].IsUserMessage())
  {
    hide Handle, HandleMessage;
    AlwaysTidy(ss, ms, k);
    var e := ss[k].log[ss[k].next];
    var w := ParentWorld(ss[k]);
    MessagePublishesARecall(w, e, ms[k].env);
    RecallKindMatchesPosition(World(AddHistory(w.core, e), w.log), ss[k].next);
    assert ss[k + 1] == Do(ss[k], ms[k]);
  }

  lemma NewConversationIsTidy(cfg: Config)
    ensures SystemTidy(NewSystem(cfg))
  {
  }
}
