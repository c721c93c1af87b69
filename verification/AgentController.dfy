/** The agent controller: the handlers of AgentCore carried out in place on the fields of a controller,
    on the event stream it shares with its delegate, and on the delegate. */
module Controller {
  import opened Events
  import Spec = AgentCore

  /** The stream numbers events in the order they are added and keeps all of them. */
  class EventStream {
    var log: seq<Event>

    constructor ()
      ensures log == []
    {
      log := [];
    }

    /** An event that already has an id is refused. */
    method AddEvent(e: Event, source: Source) returns (r: Option<Event>)
      modifies this
      ensures e.id != INVALID_ID ==> r.None? && log == old(log)
      ensures e.id == INVALID_ID ==>
                r == Some(Spec.Stamped(old(log), e, source)) && log == Spec.Emit(old(log), e, source)
    {
      if e.id != INVALID_ID {
        return None;
      }
      var added := e.(id := |log|, source := Some(source));
      log := log + [added];
      return Some(added);
    }
  }

  class AgentController {
    const cfg: Spec.Config
    const stream: EventStream
    const startId: nat
    var agentState: AgentState
    var pending: Option<Event>
    var history: seq<Event>
    var endId: int
    var cachedFirst: Option<Event>
    var stuckAt: Option<nat>
    var lastError: Spec.LastError
    var delegate: AgentController?

    ghost function Snapshot(): Spec.Core
      reads this
    {
      Spec.Core(cfg, agentState, pending, history, endId, cachedFirst, startId, stuckAt, lastError, delegate != null)
    }

    ghost function World(): Spec.World
      reads this, stream
    {
      Spec.World(Snapshot(), stream.log)
    }

    ghost predicate Valid()
      reads this
    {
      delegate != null ==> delegate != this && delegate.stream == stream
    }

    ghost function System(next: nat): Spec.System
      reads this, stream, delegate
    {
      Spec.System(Snapshot(), if delegate == null then None else Some(delegate.Snapshot()), stream.log, next)
    }

    constructor (cfg: Spec.Config, stream: EventStream, startId: nat)
      ensures Valid() && this.stream == stream
      ensures Snapshot() == Spec.Core(cfg, LOADING, None, [], -1, None, startId, None, Spec.NoError, false)
    {
      this.cfg, this.stream, this.startId := cfg, stream, startId;
      agentState, pending, history, endId := LOADING, None, [], -1;
      cachedFirst, stuckAt, lastError, delegate := None, None, Spec.NoError, null;
    }

    method AddHistory(e: Event)
      modifies this
      ensures World() == Spec.World(Spec.AddHistory(old(Snapshot()), e), old(stream.log)) && delegate == old(delegate)
    {
      if Spec.InHistory(e) {
        history := history + [e];
      }
    }

    /** Whether some observation in the history carries this tool call. */
    method FoundObservation(tool: Option<ToolCall>) returns (found: bool)
      ensures found <==> Spec.Answered(history, tool)
    {
      for i := 0 to |history|
        invariant forall k :: 0 <= k < i ==> !(history[k].IsObservation() && history[k].tool == tool)
      {
        if history[i].IsObservation() && history[i].tool == tool {
          return true;
        }
      }
      return false;
    }

    method Reset()
      modifies this, stream
      ensures World() == Spec.Reset(old(World())) && delegate == old(delegate)
    {
      if pending.Some? {
        var found := FoundObservation(pending.value.tool);
        if !found {
          var kind := if agentState == STOPPED then NotExecutedStopped else NotExecutedError;
          var e := Fresh(ErrorObservation(kind)).(tool := pending.value.tool, cause := Some(pending.value.id));
          var _ := stream.AddEvent(e, AGENT);
        }
      }
      pending := None;
    }

    method RepublishPending(s: AgentState)
      modifies this, stream
      ensures World() == Spec.Republish(old(World()), s) && delegate == old(delegate)
    {
      if pending.Some? && (s == USER_CONFIRMED || s == USER_REJECTED) {
        var mark := if s == USER_CONFIRMED then CONFIRMED else DECLINED;
        pending := stream.AddEvent(pending.value.(confirmation := Some(mark), id := INVALID_ID), AGENT);
      }
    }

    method SetAgentStateTo(s: AgentState)
      modifies this, stream
      ensures World() == Spec.SetState(old(World()), s) && delegate == old(delegate)
    {
      hide Spec.Reset, Spec.Republish;
      if s == agentState {
        return;
      }
      agentState := s;
      if s == STOPPED || s == ERROR {
        Reset();
      }
      RepublishPending(s);
      var _ := stream.AddEvent(Fresh(StateChanged(s)), ENVIRONMENT);
    }

    method ReactToException(why: Spec.LastError)
      modifies this, stream
      ensures World() == Spec.Fail(old(World()), why) && delegate == old(delegate)
    {
      lastError := why;
      SetAgentStateTo(ERROR);
    }

    method FirstUserMessage() returns (first: Option<Event>)
      modifies this`cachedFirst
      ensures first == if old(cachedFirst).Some? then old(cachedFirst) else Spec.FirstUserMessage(stream.log, startId)
      ensures cachedFirst == first
    {
      if cachedFirst.Some? {
        return cachedFirst;
      }
      var i := startId;
      while i < |stream.log|
        invariant Spec.FirstUserMessage(stream.log, startId) == Spec.FirstUserMessage(stream.log, i)
      {
        if stream.log[i].IsUserMessage() {
          cachedFirst := Some(stream.log[i]);
          return cachedFirst;
        }
        i := i + 1;
      }
      return None;
    }

    method HandleMessageAction(e: Event)
      requires e.body.Message?
      modifies this, stream
      ensures World() == Spec.HandleMessage(old(World()), e) && delegate == old(delegate)
    {
      if e.source == Some(USER) {
        var first := FirstUserMessage();
        var isFirst := first.Some? && first.value.id == e.id;
        var recall := stream.AddEvent(Fresh(Recall(e.body.content, isFirst)), USER);
        pending := recall;
        if agentState != RUNNING {
          SetAgentStateTo(RUNNING);
        }
      } else if e.source == Some(AGENT) {
        if e.body.waitForResponse {
          SetAgentStateTo(AWAITING_USER_INPUT);
        }
      }
    }

    method HandleObservation(e: Event)
      requires e.IsObservation()
      modifies this, stream
      ensures World() == Spec.HandleObservation(old(World()), e) && delegate == old(delegate)
    {
      if pending.Some? && e.cause == Some(pending.value.id) {
        if agentState == AWAITING_USER_CONFIRMATION {
          return;
        }
        pending := None;
        if agentState == USER_CONFIRMED {
          SetAgentStateTo(RUNNING);
        }
        if agentState == USER_REJECTED {
          SetAgentStateTo(AWAITING_USER_INPUT);
        }
      }
    }

    method TruncateMemoryToPoint(point: nat)
      modifies this
      ensures World() == Spec.World(Spec.Truncate(old(Snapshot()), point), old(stream.log)) && delegate == old(delegate)
    {
      if point >= |history| {
        return;
      }
      history := history[..point];
      endId := if history != [] then history[|history| - 1].id else -1;
      cachedFirst := None;
    }

    method PerformLoopRecovery(point: nat)
      modifies this, stream
      ensures World() == Spec.PerformLoopRecovery(old(World()), point) && delegate == old(delegate)
    {
      TruncateMemoryToPoint(point);
      SetAgentStateTo(AWAITING_USER_INPUT);
      var _ := stream.AddEvent(Fresh(LoopDetection), ENVIRONMENT);
    }

    method LastUserMessage() returns (last: Option<Event>)
      ensures last == Spec.LastUserMessage(history)
    {
      var i := |history|;
      assert history[..i] == history;
      while i > 0
        invariant 0 <= i <= |history|
        invariant Spec.LastUserMessage(history) == Spec.LastUserMessage(history[..i])
      {
        i := i - 1;
        assert history[..i + 1][..i] == history[..i];
        if history[i].IsUserMessage() {
          return Some(history[i]);
        }
      }
      return None;
    }

    method RestartWithLastUserMessage(point: nat)
      modifies this, stream
      ensures World() == Spec.RestartWithLastUserMessage(old(World()), point) && delegate == old(delegate)
    {
      hide Spec.SetState, Spec.HandleMessage;
      var last := LastUserMessage();
      if last.Some? {
        TruncateMemoryToPoint(point);
        SetAgentStateTo(RUNNING);
        var _ := stream.AddEvent(Fresh(LoopDetection), ENVIRONMENT);
        HandleMessageAction(Fresh(Message(last.value.body.content, false)).(source := Some(USER)));
      } else {
        PerformLoopRecovery(point);
      }
    }

    method HandleLoopRecoveryAction(option: int)
      modifies this, stream
      ensures World() == Spec.HandleLoopRecovery(old(World()), option) && delegate == old(delegate)
    {
      hide Spec.SetState, Spec.PerformLoopRecovery, Spec.RestartWithLastUserMessage;
      if stuckAt.Some? {
        if option == 1 {
          PerformLoopRecovery(stuckAt.value);
        } else if option == 2 {
          RestartWithLastUserMessage(stuckAt.value);
        } else if option == 3 {
          SetAgentStateTo(STOPPED);
        }
      }
    }

    /** The new delegate works on the same stream, from its present end on. */
    method StartDelegate(task: Option<string>, agent: Spec.AgentConfig)
      modifies this, stream
      ensures var (w, child) := Spec.StartDelegate(old(World()), task, agent);
              && World() == w && Valid()
              && delegate != null && fresh(delegate) && delegate.Snapshot() == child && delegate.Valid()
    {
      hide Spec.SetState;
      var child := new AgentController(Spec.DelegateConfig(cfg, agent), stream, |stream.log|);
      if agent.systemMessage {
        var _ := stream.AddEvent(Fresh(SystemMessage), AGENT);
      }
      delegate := child;
      if task.Some? {
        var _ := stream.AddEvent(Fresh(Message("TASK: " + task.value, false)), USER);
        child.SetAgentStateTo(RUNNING);
      }
    }

    method HandleAction(e: Event, env: Spec.Env)
      requires e.IsAction() && Valid()
      modifies this, stream
      ensures var (w, child) := Spec.HandleAction(old(World()), e, env);
              && World() == w && Valid()
              && (child.Some? ==>
                    delegate != null && fresh(delegate) && delegate.Snapshot() == child.value && delegate.Valid())
              && (child.None? ==> delegate == old(delegate))
    {
      hide Spec.SetState, Spec.HandleMessage, Spec.HandleLoopRecovery, Spec.StartDelegate;
      match e.body
      case ChangeState(target) => SetAgentStateTo(target);
      case Message(_, _) => HandleMessageAction(e);
      case DelegateAction(task) => StartDelegate(task, env.delegateAgent);
      case Finish => SetAgentStateTo(FINISHED);
      case Reject => SetAgentStateTo(REJECTED);
      case LoopRecovery(option) => HandleLoopRecoveryAction(option);
      case _ =>
    }

    method ShouldStep(e: Event) returns (b: bool)
      ensures b == Spec.ShouldStep(Snapshot(), e)
    {
      if delegate != null {
        return false;
      }
      if e.IsAction() {
        if e.IsUserMessage() {
          return true;
        }
        if e.body.Message? && agentState != AWAITING_USER_INPUT {
          return true;
        }
        return e.body.DelegateAction? || e.body.Condensation? || e.body.CondensationRequest?;
      }
      if e.body.NullObservation? && e.cause.Some? && e.cause.value > 0 {
        return true;
      }
      return !(e.body.StateChanged? || e.body.NullObservation?);
    }

    method IssueAction(a: Event, origin: Source)
      modifies this, stream
      ensures World() == Spec.Issue(old(World()), a, origin) && delegate == old(delegate)
    {
      hide Spec.SetState, Spec.Fail;
      if a.body.Runnable? {
        pending := Some(a);
      }
      if !a.body.NullAction? {
        if a.confirmation == Some(AWAITING_CONFIRMATION) {
          SetAgentStateTo(AWAITING_USER_CONFIRMATION);
        }
        var out := stream.AddEvent(a, origin);
        if out.None? {
          ReactToException(Spec.OtherFailure);
        } else if a.body.Runnable? {
          pending := out;
        }
      }
    }

    method Step(env: Spec.Env)
      modifies this, stream
      ensures World() == Spec.Step(old(World()), env) && delegate == old(delegate)
    {
      hide Spec.SetState, Spec.Fail, Spec.Issue;
      if agentState != RUNNING {
        return;
      }
      if pending.Some? {
        return;
      }
      if cfg.agent.stuckDetection {
        stuckAt := env.stuck;
        if env.outcome.StuckInLoop? {
          ReactToException(Spec.OtherFailure);
          return;
        }
      }
      match env.outcome
      case IterationLimit => ReactToException(Spec.IterationLimitReached);
      case RecoverableError =>
        var _ := stream.AddEvent(Fresh(ErrorObservation(OtherError)), AGENT);
      case ContextOverflow =>
        if cfg.agent.historyTruncation {
          var _ := stream.AddEvent(Fresh(CondensationRequest), AGENT);
        } else {
          ReactToException(Spec.OtherFailure);
        }
      case RateLimited =>
        if cfg.hasStatusCallback {
          lastError := Spec.OtherFailure;
          SetAgentStateTo(RATE_LIMITED);
        } else {
          ReactToException(Spec.OtherFailure);
        }
      case Act(a, origin, risk) => IssueAction(Spec.Guarded(cfg, a, risk), origin);
      case _ => ReactToException(Spec.OtherFailure);
    }

    /** Handles an event itself, whether or not it has a delegate. */
    method HandleEvent(e: Event, env: Spec.Env)
      requires Valid()
      modifies this, stream
      ensures var (w, child) := Spec.Handle(old(World()), e, env);
              && World() == w && Valid()
              && (child.Some? ==>
                    delegate != null && fresh(delegate) && delegate.Snapshot() == child.value && delegate.Valid())
              && (child.None? ==> delegate == old(delegate))
    {
      hide Spec.HandleAction, Spec.HandleObservation, Spec.Step, Spec.ShouldStep;
      if e.hidden {
        return;
      }
      AddHistory(e);
      if e.IsAction() {
        HandleAction(e, env);
      } else {
        HandleObservation(e);
      }
      var step := ShouldStep(e);
      if step {
        Step(env);
      }
    }

    /** The tool call of the newest delegate action in the history. */
    method DelegateTool() returns (tool: Option<ToolCall>)
      ensures tool == Spec.LastDelegateTool(history)
    {
      var i := |history|;
      assert history[..i] == history;
      while i > 0
        invariant 0 <= i <= |history|
        invariant Spec.LastDelegateTool(history) == Spec.LastDelegateTool(history[..i])
      {
        i := i - 1;
        assert history[..i + 1][..i] == history[..i];
        if history[i].body.DelegateAction? {
          return history[i].tool;
        }
      }
      return None;
    }

    method EndDelegate(ghost next: nat)
      requires Valid() && delegate != null
      modifies this, stream, delegate
      ensures System(next) == Spec.EndDelegate(old(System(next))) && Valid() && delegate == null
    {
      hide Spec.SetState;
      delegate.SetAgentStateTo(STOPPED);
      var tool := DelegateTool();
      var _ := stream.AddEvent(Fresh(DelegateObservation).(tool := tool), AGENT);
      delegate := null;
    }

    ghost predicate AllValid()
      reads this, delegate
    {
      Valid() && (delegate != null ==> delegate.Valid())
    }

    /** Events go to the delegate while it is neither done nor failed; the first event after that ends it. */
    method OnEvent(e: Event, env: Spec.Env, ghost next: nat)
      requires AllValid()
      modifies this, stream, delegate
      ensures System(next) == Spec.OnEvent(old(System(next)), e, env) && AllValid()
      ensures delegate == null || delegate == old(delegate) || fresh(delegate)
    {
      hide Spec.Handle, Spec.EndDelegate;
      if delegate != null {
        var done := delegate.agentState in {FINISHED, ERROR, REJECTED}
                    && delegate.lastError != Spec.IterationLimitReached;
        if !done {
          delegate.HandleEvent(e, env);
        } else {
          EndDelegate(next);
        }
        return;
      }
      HandleEvent(e, env);
    }

    /** One move of the system around this controller; `next` is the position of the next event to deliver. */
    method Move(m: Spec.Move, next: nat) returns (next': nat)
      requires AllValid() && Spec.Enabled(System(next), m)
      modifies this, stream, delegate
      ensures System(next') == Spec.Do(old(System(next)), m) && AllValid()
      ensures delegate == null || delegate == old(delegate) || fresh(delegate)
    {
      hide Spec.OnEvent, Spec.SetState, Spec.Step;
      next' := next;
      match m
      case Deliver(env) =>
        next' := next + 1;
        OnEvent(stream.log[next], env, next + 1);
      case Publish(e, source) =>
        var _ := stream.AddEvent(e, source);
      case Command(st) => SetAgentStateTo(st);
      case Poke(env) => Step(env);
    }

    /** A whole life of the controller: the moves in order, each if it is possible when its time comes. */
    method MoveAll(moves: seq<Spec.Move>, from: nat) returns (next: nat)
      requires AllValid()
      modifies this, stream, delegate
      ensures System(next) == Spec.DoAll(old(System(from)), moves) && AllValid()
    {
      hide Spec.Do, Spec.Enabled;
      next := from;
      for i := 0 to |moves|
        invariant AllValid() && (delegate == null || delegate == old(delegate) || fresh(delegate))
        invariant System(next) == Spec.DoAll(old(System(from)), moves[..i])
      {
        assert moves[..i + 1][..i] == moves[..i];
        var possible := IsPossible(moves[i], next);
        if possible {
          next := Move(moves[i], next);
        }
      }
      assert moves[..|moves|] == moves;
    }

    method IsPossible(m: Spec.Move, next: nat) returns (b: bool)
      ensures b <==> Spec.Enabled(System(next), m)
    {
      match m
      case Deliver(env) => b := next < |stream.log| && Spec.EnvOk(env);
      case Publish(e, _) => b := e.id == INVALID_ID;
      case Command(_) => b := true;
      case Poke(env) => b := Spec.EnvOk(env);
    }
  }

  /** A controller from its creation on: whatever moves follow, it is where the run theorems say. */
  method RunConversation(cfg: Spec.Config, moves: seq<Spec.Move>) returns (log: seq<Event>, state: AgentState)
    ensures var s := Spec.DoAll(Spec.NewSystem(cfg), moves); log == s.log && state == s.parent.state
  {
    var stream := new EventStream();
    var controller := new AgentController(cfg, stream, 0);
    var _ := controller.MoveAll(moves, 0);
    log, state := stream.log, controller.agentState;
  }
}
