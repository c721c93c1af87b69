/** What the handlers of AgentCore keep over whole runs. */
module AgentRuns {
  import opened Events
  import opened AgentCore

  // ---- the turns of one controller ----

  /** What one controller sees: it handles an event, its state is set from outside, it is made to step,
      others extend the stream, or its delegate ends. */
  datatype Turn =
    | Handles(e: Event, env: Env)
    | SetTo(state: AgentState)
    | Steps(env: Env)
    | Others(log: seq<Event>)
    | Resumes(log: seq<Event>)

  function Take(w: World, t: Turn): World {
    match t
    case Handles(e, env) => Handle(w, e, env).0
    case SetTo(s) => SetState(w, s)
    case Steps(env) => Step(w, env)
    case Others(log) => World(w.core, log)
    case Resumes(log) => World(w.core.(delegating := false), log)
  }

  ghost predicate IsTurnRun(ws: seq<World>, ts: seq<Turn>) {
    |ws| == |ts| + 1 && forall k :: 0 <= k < |ts| ==> ws[k + 1] == Take(ws[k], ts[k])
  }

  // ---- slot and state agree ----

  predicate SlotAgrees(c: Core) {
    c.pending.Some? ==>
      && !Halting(c.state)
      && (c.state == USER_CONFIRMED ==> c.pending.value.confirmation == Some(CONFIRMED))
      && (c.state == USER_REJECTED ==> c.pending.value.confirmation == Some(DECLINED))
  }

  lemma SetStateKeepsSlot(w: World, s: AgentState)
    requires SlotAgrees(w.core)
    ensures SlotAgrees(SetState(w, s).core)
  {
    hide SetState;
  }

  lemma FailKeepsSlot(w: World, why: LastError)
    requires SlotAgrees(w.core)
    ensures SlotAgrees(Fail(w, why).core)
  {
    hide SetState;
  }

  lemma IssueKeepsSlot(w: World, a: Event, origin: Source)
    requires MayStep(w.core)
    ensures SlotAgrees(Issue(w, a, origin).core)
  {
    hide SetState;
  }

  lemma StepKeepsSlot(w: World, env: Env)
    requires SlotAgrees(w.core)
    ensures SlotAgrees(Step(w, env).core)
  {
    hide SetState, Fail, Issue;
    if MayStep(w.core) {
      var stuck := if w.core.cfg.agent.stuckDetection then env.stuck else w.core.stuck;
      var w1 := World(w.core.(stuck := stuck), w.log);
      match env.outcome
      case RecoverableError =>
      case RateLimited => FailKeepsSlot(w1, OtherFailure);
      case IterationLimit => FailKeepsSlot(w1, IterationLimitReached);
      case Act(a, origin, risk) => IssueKeepsSlot(w1, Guarded(w1.core.cfg, a, risk), origin);
      case _ => FailKeepsSlot(w1, OtherFailure);
    }
  }

  lemma LoopRecoveryKeepsSlot(w: World, option: int)
    requires SlotAgrees(w.core)
    ensures SlotAgrees(HandleLoopRecovery(w, option).core)
  {
    hide SetState;
  }

  lemma HandleMessageKeepsSlot(w: World, e: Event)
    requires SlotAgrees(w.core)
    ensures SlotAgrees(HandleMessage(w, e).core)
  {
    hide SetState;
  }

  lemma HandleObservationKeepsSlot(w: World, e: Event)
    requires SlotAgrees(w.core)
    ensures SlotAgrees(HandleObservation(w, e).core)
  {
    hide SetState;
  }

  lemma AbsorbKeepsSlot(w: World, e: Event, env: Env)
    requires SlotAgrees(w.core)
    ensures SlotAgrees(Absorb(w, e, env).0.core)
  {
    hide SetState, HandleLoopRecovery, HandleMessage, HandleObservation;
    var w1 := World(AddHistory(w.core, e), w.log);
    match e.body
    case Message(_, _) => HandleMessageKeepsSlot(w1, e);
    case LoopRecovery(option) => LoopRecoveryKeepsSlot(w1, option);
    case _ => HandleObservationKeepsSlot(w1, e);
  }

  lemma TurnKeepsSlot(w: World, t: Turn)
    requires SlotAgrees(w.core)
    ensures SlotAgrees(Take(w, t).core)
  {
    match t
    case Handles(e, env) =>
      AbsorbKeepsSlot(w, e, env);
      StepKeepsSlot(Absorb(w, e, env).0, env);
    case SetTo(s) => SetStateKeepsSlot(w, s);
    case Steps(env) => StepKeepsSlot(w, env);
    case _ =>
  }

  lemma {:induction false} SlotAlwaysAgrees(ws: seq<World>, ts: seq<Turn>, k: nat)
    requires IsTurnRun(ws, ts) && SlotAgrees(ws[0].core) && k < |ws|
    ensures SlotAgrees(ws[k].core)
  {
    if k > 0 {
      SlotAlwaysAgrees(ws, ts, k - 1);
      TurnKeepsSlot(ws[k - 1], ts[k - 1]);
    }
  }

  // ---- pending-slot discipline ----

  predicate StepIssues(c: Core, env: Env) {
    MayStep(c) && env.outcome.Act? && env.outcome.action.body.Runnable? && env.outcome.action.id == INVALID_ID
  }

  /** The turn makes the agent publish a new runnable action. */
  predicate Issues(w: World, t: Turn) {
    match t
    case Handles(e, env) =>
      var w1 := Absorb(w, e, env).0;
      !e.hidden && ShouldStep(w1.core, e) && StepIssues(w1.core, env)
    case Steps(env) => StepIssues(w.core, env)
    case _ => false
  }

  /** An observation whose cause is the current id of the pending action. */
  predicate ReleasedByAnswer(w: World, t: Turn) {
    t.Handles? && !t.e.hidden && Answers(w.core, t.e)
  }

  predicate ReleasedByReset(w: World, t: Turn) {
    var s := Take(w, t).core.state;
    Halting(s) && s != w.core.state
  }

  /** A user message, delivered or re-used by loop recovery, puts its own recall action into the slot. */
  predicate ReleasedByUserMessage(w: World, t: Turn) {
    t.Handles? && !t.e.hidden &&
    (t.e.IsUserMessage() ||
     (t.e.body == LoopRecovery(2) && w.core.stuck.Some? && LastUserMessage(AddHistory(w.core, t.e).history).Some?))
  }

  predicate Releases(w: World, t: Turn) {
    ReleasedByAnswer(w, t) || ReleasedByReset(w, t) || ReleasedByUserMessage(w, t)
  }

  /** The same action, possibly confirmed or rejected and published again since. */
  predicate SameAction(p: Event, q: Event) {
    p.body == q.body && p.tool == q.tool && p.cause == q.cause
  }

  predicate Holds(w: World, p: Event) {
    w.core.pending.Some? && SameAction(p, w.core.pending.value)
  }

  lemma LoopRecoveryHolds(w: World, option: int, p: Event)
    requires Holds(w, p)
    requires !(option == 2 && w.core.stuck.Some? && LastUserMessage(w.core.history).Some?)
    ensures var r := HandleLoopRecovery(w, option);
            Holds(r, p) || (Halting(r.core.state) && r.core.state != w.core.state)
  {
    hide SetState;
  }

  lemma AbsorbHolds(w: World, e: Event, env: Env, p: Event)
    requires Holds(w, p) && !e.hidden
    requires !ReleasedByAnswer(w, Handles(e, env)) && !ReleasedByUserMessage(w, Handles(e, env))
    ensures var r := Absorb(w, e, env).0;
            Holds(r, p) || (Halting(r.core.state) && r.core.state != w.core.state)
  {
    hide SetState, HandleLoopRecovery;
    if e.body.LoopRecovery? {
      LoopRecoveryHolds(World(AddHistory(w.core, e), w.log), e.body.option, p);
    }
  }

  lemma SlotIsKept(w: World, t: Turn, p: Event)
    requires Holds(w, p) && !Releases(w, t)
    ensures Holds(Take(w, t), p) && !Issues(w, t)
  {
    hide SetState, Absorb, ReleasedByAnswer, ReleasedByUserMessage, ShouldStep;
    if t.Handles? && !t.e.hidden {
      AbsorbHolds(w, t.e, t.env, p);
    }
  }

  lemma IssuedActionIsHeld(w: World, t: Turn)
    requires Issues(w, t)
    ensures var r := Take(w, t);
            && r.core.pending.Some? && r.core.pending.value.body.Runnable?
            && |r.log| > 0 && r.core.pending.value.id == |r.log| - 1
            && r.log[|r.log| - 1] == r.core.pending.value
  {
    hide SetState, Absorb;
  }

  lemma {:induction false} FirstRelease(ws: seq<World>, ts: seq<Turn>, i: nat, j: nat, p: Event) returns (k: nat)
    requires IsTurnRun(ws, ts) && i < j < |ts|
    requires Holds(ws[i + 1], p)
    requires Issues(ws[j], ts[j])
    ensures i < k <= j && Releases(ws[k], ts[k])
    ensures forall m :: i < m <= k ==> Holds(ws[m], p)
    decreases j - i
  {
    hide Take, Releases, Issues;
    k := i + 1;
    if !Releases(ws[k], ts[k]) {
      SlotIsKept(ws[k], ts[k], p);
      assert ws[k + 1] == Take(ws[k], ts[k]);
      k := FirstRelease(ws, ts, i + 1, j, p);
    }
  }

  /** Between two runnable actions the slot is released, and until its first release it holds the
      first of them. */
  lemma SlotDiscipline(ws: seq<World>, ts: seq<Turn>, i: nat, j: nat)
    requires IsTurnRun(ws, ts) && i < j < |ts|
    requires Issues(ws[i], ts[i]) && Issues(ws[j], ts[j])
    ensures ws[i + 1].core.pending.Some?
    ensures exists k :: i < k <= j && Releases(ws[k], ts[k]) &&
                        (forall m :: i < m <= k ==> Holds(ws[m], ws[i + 1].core.pending.value))
  {
    hide Take, Releases, Issues;
    IssuedActionIsHeld(ws[i], ts[i]);
    assert ws[i + 1] == Take(ws[i], ts[i]);
    var k := FirstRelease(ws, ts, i, j, ws[i + 1].core.pending.value);
  }

  // ---- runs of a controller with its delegate ----

  ghost predicate IsRun(ss: seq<System>, ms: seq<Move>) {
    |ss| == |ms| + 1 && forall k :: 0 <= k < |ms| ==> Enabled(ss[k], ms[k]) && ss[k + 1] == Do(ss[k], ms[k])
  }

  /** The turn the root controller takes in a move of the system. */
  function ParentTurn(s: System, m: Move): Turn
    requires Enabled(s, m)
  {
    match m
    case Deliver(env) =>
      if s.child.None? then Handles(s.log[s.next], env)
      else if Forwards(s.child.value) then Others(Do(s, m).log)
      else Resumes(Do(s, m).log)
    case Publish(_, _) => Others(Do(s, m).log)
    case Command(st) => SetTo(st)
    case Poke(env) => Steps(env)
  }

  function ParentWorld(s: System): World {
    World(s.parent, s.log)
  }

  lemma ParentTakesTurns(s: System, m: Move)
    requires Enabled(s, m)
    ensures ParentWorld(Do(s, m)) == Take(ParentWorld(s), ParentTurn(s, m))
  {
    hide Handle, SetState, Step;
  }

  /** The turn a delegate takes in a move that does not end it. */
  function ChildTurn(s: System, m: Move): Turn
    requires Enabled(s, m)
  {
    if m.Deliver? then Handles(s.log[s.next], m.env) else Others(Do(s, m).log)
  }

  lemma ChildTakesTurns(s: System, m: Move)
    requires Enabled(s, m) && s.child.Some? && Do(s, m).child.Some?
    ensures World(Do(s, m).child.value, Do(s, m).log) == Take(World(s.child.value, s.log), ChildTurn(s, m))
  {
    hide Handle, SetState, Step;
  }

  function ChildWorld(s: System): World
    requires s.child.Some?
  {
    World(s.child.value, s.log)
  }

  /** Slot and state agree in the root controller and in its delegate. */
  predicate SystemAgrees(s: System) {
    SlotAgrees(s.parent) && (s.child.Some? ==> SlotAgrees(s.child.value))
  }

  lemma StartedDelegateAgrees(w: World, e: Event, env: Env)
    ensures Handle(w, e, env).1.Some? ==> SlotAgrees(Handle(w, e, env).1.value)
  {
    hide SetState, Step, SlotAgrees;
    if e.body.DelegateAction? {
      var w1 := World(AddHistory(w.core, e), w.log);
      DelegateStartsAgreeing(w1, e.body.task, env.delegateAgent);
    }
  }

  lemma DelegateStartsAgreeing(w: World, task: Option<string>, agent: AgentConfig)
    ensures SlotAgrees(StartDelegate(w, task, agent).1)
  {
    hide SetState;
  }

  lemma MoveKeepsAgreement(s: System, m: Move)
    requires Enabled(s, m) && SystemAgrees(s)
    ensures SystemAgrees(Do(s, m))
  {
    ParentTakesTurns(s, m);
    TurnKeepsSlot(ParentWorld(s), ParentTurn(s, m));
    if s.child.Some? && Do(s, m).child.Some? {
      ChildTakesTurns(s, m);
      TurnKeepsSlot(ChildWorld(s), ChildTurn(s, m));
    } else if m.Deliver? {
      hide Handle, SetState, Step, SlotAgrees, Take;
      StartedDelegateAgrees(ParentWorld(s), s.log[s.next], m.env);
    }
  }

  /** At every moment of every run of the whole system. */
  lemma {:induction false} SystemAlwaysAgrees(ss: seq<System>, ms: seq<Move>, k: nat)
    requires IsRun(ss, ms) && SystemAgrees(ss[0]) && k < |ss|
    ensures SystemAgrees(ss[k])
  {
    hide Do;
    if k > 0 {
      SystemAlwaysAgrees(ss, ms, k - 1);
      MoveKeepsAgreement(ss[k - 1], ms[k - 1]);
      assert ss[k] == Do(ss[k - 1], ms[k - 1]);
    }
  }

  /** A run of the system as the root controller sees it. */
  ghost function RootWorlds(ss: seq<System>): (ws: seq<World>)
    ensures |ws| == |ss| && forall k :: 0 <= k < |ss| ==> ws[k] == ParentWorld(ss[k])
  {
    seq(|ss|, k requires 0 <= k < |ss| => ParentWorld(ss[k]))
  }

  ghost function RootTurns(ss: seq<System>, ms: seq<Move>): (ts: seq<Turn>)
    requires IsRun(ss, ms)
    ensures |ts| == |ms| && forall k :: 0 <= k < |ms| ==> ts[k] == ParentTurn(ss[k], ms[k])
  {
    seq(|ms|, k requires 0 <= k < |ms| => ParentTurn(ss[k], ms[k]))
  }

  lemma RootTakesTurns(ss: seq<System>, ms: seq<Move>)
    requires IsRun(ss, ms)
    ensures IsTurnRun(RootWorlds(ss), RootTurns(ss, ms))
  {
    hide Take, ParentTurn, Do;
    var ws, ts := RootWorlds(ss), RootTurns(ss, ms);
    forall k | 0 <= k < |ts| ensures ws[k + 1] == Take(ws[k], ts[k]) {
      ParentTakesTurns(ss[k], ms[k]);
    }
  }

  /** The part of a run from position `a` to position `b` is a run. */
  lemma PartOfARun(ss: seq<System>, ms: seq<Move>, a: nat, b: nat)
    requires IsRun(ss, ms) && a <= b < |ss|
    ensures IsRun(ss[a..b + 1], ms[a..b])
  {
    hide Do, Enabled;
  }

  /** A run, or part of one, through which a delegate lives. */
  ghost predicate DelegateLives(ss: seq<System>) {
    forall k :: 0 <= k < |ss| ==> ss[k].child.Some?
  }

  ghost function DelegateWorlds(ss: seq<System>): (ws: seq<World>)
    requires DelegateLives(ss)
    ensures |ws| == |ss| && forall k :: 0 <= k < |ss| ==> ws[k] == ChildWorld(ss[k])
  {
    seq(|ss|, k requires 0 <= k < |ss| => ChildWorld(ss[k]))
  }

  ghost function DelegateTurns(ss: seq<System>, ms: seq<Move>): (ts: seq<Turn>)
    requires IsRun(ss, ms)
    ensures |ts| == |ms| && forall k :: 0 <= k < |ms| ==> ts[k] == ChildTurn(ss[k], ms[k])
  {
    seq(|ms|, k requires 0 <= k < |ms| => ChildTurn(ss[k], ms[k]))
  }

  lemma DelegateTakesTurns(ss: seq<System>, ms: seq<Move>)
    requires IsRun(ss, ms) && DelegateLives(ss)
    ensures IsTurnRun(DelegateWorlds(ss), DelegateTurns(ss, ms))
  {
    hide Take, ChildTurn, Do;
    var ws, ts := DelegateWorlds(ss), DelegateTurns(ss, ms);
    forall k | 0 <= k < |ts| ensures ws[k + 1] == Take(ws[k], ts[k]) {
      assert ss[k + 1] == Do(ss[k], ms[k]) && ss[k + 1].child.Some?;
      ChildTakesTurns(ss[k], ms[k]);
    }
  }

  /** Slot discipline of the root controller in every run of the whole system. */
  lemma RootSlotDiscipline(ss: seq<System>, ms: seq<Move>, i: nat, j: nat)
    requires IsRun(ss, ms) && i < j < |ms|
    requires Issues(ParentWorld(ss[i]), ParentTurn(ss[i], ms[i]))
    requires Issues(ParentWorld(ss[j]), ParentTurn(ss[j], ms[j]))
    ensures ss[i + 1].parent.pending.Some?
    ensures exists k :: i < k <= j && Releases(ParentWorld(ss[k]), ParentTurn(ss[k], ms[k])) &&
                        (forall m :: i < m <= k ==> Holds(ParentWorld(ss[m]), ss[i + 1].parent.pending.value))
  {
    hide Take, Releases, Issues, ParentTurn, Do, Holds;
    RootTakesTurns(ss, ms);
    var ws, ts := RootWorlds(ss), RootTurns(ss, ms);
    SlotDiscipline(ws, ts, i, j);
    var k :| i < k <= j && Releases(ws[k], ts[k])
             && forall m :: i < m <= k ==> Holds(ws[m], ws[i + 1].core.pending.value);
    forall m | i < m <= k ensures Holds(ParentWorld(ss[m]), ss[i + 1].parent.pending.value) {
      assert Holds(ws[m], ws[i + 1].core.pending.value);
    }
  }

  lemma {:induction false} DelegateFirstRelease(ss: seq<System>, ms: seq<Move>, i: nat, j: nat, p: Event)
    returns (k: nat)
    requires IsRun(ss, ms) && i < j < |ms| && forall m :: i <= m <= j + 1 ==> ss[m].child.Some?
    requires Holds(ChildWorld(ss[i + 1]), p) && Issues(ChildWorld(ss[j]), ChildTurn(ss[j], ms[j]))
    ensures i < k <= j && Releases(ChildWorld(ss[k]), ChildTurn(ss[k], ms[k]))
    ensures forall m :: i < m <= k ==> Holds(ChildWorld(ss[m]), p)
    decreases j - i
  {
    hide Take, Releases, Issues, ChildTurn, Do, Holds;
    k := i + 1;
    if !Releases(ChildWorld(ss[k]), ChildTurn(ss[k], ms[k])) {
      SlotIsKept(ChildWorld(ss[k]), ChildTurn(ss[k], ms[k]), p);
      assert ss[k + 1] == Do(ss[k], ms[k]);
      ChildTakesTurns(ss[k], ms[k]);
      k := DelegateFirstRelease(ss, ms, i + 1, j, p);
    }
  }

  /** The same for a delegate, while it lives. */
  lemma DelegateSlotDiscipline(ss: seq<System>, ms: seq<Move>, i: nat, j: nat)
    requires IsRun(ss, ms) && i < j < |ms| && forall k :: i <= k <= j + 1 ==> ss[k].child.Some?
    requires Issues(ChildWorld(ss[i]), ChildTurn(ss[i], ms[i]))
    requires Issues(ChildWorld(ss[j]), ChildTurn(ss[j], ms[j]))
    ensures ss[i + 1].child.value.pending.Some?
    ensures exists k :: i < k <= j && Releases(ChildWorld(ss[k]), ChildTurn(ss[k], ms[k])) &&
                        (forall m :: i < m <= k ==> Holds(ChildWorld(ss[m]), ss[i + 1].child.value.pending.value))
  {
    hide Take, Releases, Issues, ChildTurn, Do;
    assert ss[i + 1] == Do(ss[i], ms[i]);
    ChildTakesTurns(ss[i], ms[i]);
    IssuedActionIsHeld(ChildWorld(ss[i]), ChildTurn(ss[i], ms[i]));
    var k := DelegateFirstRelease(ss, ms, i, j, ss[i + 1].child.value.pending.value);
  }

  /** What DoAll computes is where a run of the moves that were possible ends. */
  lemma {:induction false} DoAllIsARun(s: System, ms: seq<Move>) returns (ss: seq<System>, taken: seq<Move>)
    ensures IsRun(ss, taken) && ss[0] == s && ss[|taken|] == DoAll(s, ms)
    ensures |taken| <= |ms| && forall m :: m in taken ==> m in ms
  {
    hide Do, Enabled;
    if ms == [] {
      ss, taken := [s], [];
    } else {
      var last := ms[|ms| - 1];
      ss, taken := DoAllIsARun(s, ms[..|ms| - 1]);
      if Enabled(DoAll(s, ms[..|ms| - 1]), last) {
        ss, taken := ss + [DoAll(s, ms)], taken + [last];
      }
    }
  }

  // ---- delegation ----

  predicate RoutingAgrees(s: System) {
    s.parent.delegating == s.child.Some?
  }

  lemma HandleDelegates(w: World, e: Event, env: Env)
    ensures var (w', child) := Handle(w, e, env); w'.core.delegating <==> w.core.delegating || child.Some?
  {
    hide SetState;
    AbsorbDelegates(w, e, env);
    hide Absorb;
  }

  lemma AbsorbDelegates(w: World, e: Event, env: Env)
    ensures var (w', child) := Absorb(w, e, env); w'.core.delegating <==> w.core.delegating || child.Some?
  {
    hide SetState, HandleLoopRecovery;
    if e.body.LoopRecovery? {
      RecoveryKeepsDelegating(World(AddHistory(w.core, e), w.log), e.body.option);
    }
  }

  lemma RecoveryKeepsDelegating(w: World, option: int)
    ensures HandleLoopRecovery(w, option).core.delegating == w.core.delegating
  {
    hide SetState;
  }

  lemma MoveKeepsRouting(s: System, m: Move)
    requires Enabled(s, m) && RoutingAgrees(s)
    ensures RoutingAgrees(Do(s, m))
    ensures s.child.Some? ==> Do(s, m).parent.history == s.parent.history
    ensures s.child.Some? && (m.Deliver? || m.Publish?) ==>
              Do(s, m).parent == s.parent.(delegating := Do(s, m).child.Some?)
  {
    hide SetState, Handle;
    if m.Deliver? && s.child.None? {
      HandleDelegates(ParentWorld(s), s.log[s.next], m.env);
    }
  }

  lemma {:induction false} RoutingAlwaysAgrees(ss: seq<System>, ms: seq<Move>, k: nat)
    requires IsRun(ss, ms) && RoutingAgrees(ss[0]) && k < |ss|
    ensures RoutingAgrees(ss[k])
  {
    hide Do;
    if k > 0 {
      RoutingAlwaysAgrees(ss, ms, k - 1);
      MoveKeepsRouting(ss[k - 1], ms[k - 1]);
      assert ss[k] == Do(ss[k - 1], ms[k - 1]);
    }
  }

  /** A delegate is started only by a delivered delegate action, which is then the newest event of
      the parent's history. */
  lemma DelegateStarts(s: System, m: Move)
    requires Enabled(s, m) && RoutingAgrees(s) && s.child.None? && Do(s, m).child.Some?
    ensures m.Deliver? && s.log[s.next].body.DelegateAction?
    ensures Do(s, m).parent.history == s.parent.history + [s.log[s.next]]
  {
    hide SetState;
  }

  /** While the delegate runs the parent's history is frozen; when no one commands the parent
      directly, so are its state and its slot. */
  lemma {:induction false} ParentIsFrozen(ss: seq<System>, ms: seq<Move>, i: nat, j: nat)
    requires IsRun(ss, ms) && i <= j < |ss| && RoutingAgrees(ss[i])
    requires forall k :: i <= k <= j ==> ss[k].child.Some?
    ensures ss[j].parent.history == ss[i].parent.history && RoutingAgrees(ss[j])
    ensures (forall k :: i <= k < j ==> ms[k].Deliver? || ms[k].Publish?) ==> ss[j].parent == ss[i].parent
  {
    hide Do;
    if i < j {
      ParentIsFrozen(ss, ms, i, j - 1);
      MoveKeepsRouting(ss[j - 1], ms[j - 1]);
      assert ss[j] == Do(ss[j - 1], ms[j - 1]);
    }
  }

  lemma DelegateEnds(s: System, m: Move)
    requires Enabled(s, m) && RoutingAgrees(s) && s.child.Some? && Do(s, m).child.None?
    ensures var s' := Do(s, m);
            && |s'.log| > |s.log|
            && s'.log[|s'.log| - 1].body.DelegateObservation?
            && s'.log[|s'.log| - 1].tool == LastDelegateTool(s.parent.history)
  {
    hide SetState, Handle;
    if Forwards(s.child.value) {
    } else {
      SetStateExtends(World(s.child.value, s.log), STOPPED);
    }
  }

  lemma SetStateExtends(w: World, s: AgentState)
    ensures w.log <= SetState(w, s).log
  {
  }

  /** The result of a delegate carries the tool call of exactly the action that started it. */
  lemma DelegateResultIsPaired(ss: seq<System>, ms: seq<Move>, i: nat, j: nat)
    requires IsRun(ss, ms) && i < j < |ms| && RoutingAgrees(ss[0])
    requires ss[i].child.None? && ss[j + 1].child.None?
    requires forall k :: i < k <= j ==> ss[k].child.Some?
    ensures ms[i].Deliver? && ss[i].log[ss[i].next].body.DelegateAction?
    ensures ss[j + 1].log != []
    ensures var result := ss[j + 1].log[|ss[j + 1].log| - 1];
            && result.body.DelegateObservation?
            && result.tool == ss[i].log[ss[i].next].tool
    ensures ss[j + 1].parent.history == ss[i].parent.history + [ss[i].log[ss[i].next]]
  {
    hide Do;
    RoutingAlwaysAgrees(ss, ms, i);
    assert ss[i + 1] == Do(ss[i], ms[i]) && ss[j + 1] == Do(ss[j], ms[j]);
    DelegateStarts(ss[i], ms[i]);
    MoveKeepsRouting(ss[i], ms[i]);
    ParentIsFrozen(ss, ms, i + 1, j);
    MoveKeepsRouting(ss[j], ms[j]);
    DelegateEnds(ss[j], ms[j]);
  }

  /** A delegate that delegates in turn never steps again: its own delegate receives no events, so
      nothing ever ends it. */
  lemma {:induction false} NestedDelegateStarves(ss: seq<System>, ms: seq<Move>, i: nat, j: nat)
    requires IsRun(ss, ms) && i <= j < |ss|
    requires forall k :: i <= k <= j ==> ss[k].child.Some?
    requires ss[i].child.value.delegating
    ensures ss[j].child.value.delegating
    ensures j < |ms| && ms[j].Deliver? ==>
              !ShouldStep(Absorb(World(ss[j].child.value, ss[j].log), ss[j].log[ss[j].next], ms[j].env).0.core,
                          ss[j].log[ss[j].next])
  {
    hide Do, Absorb;
    if i < j {
      NestedDelegateStarves(ss, ms, i, j - 1);
      assert ss[j] == Do(ss[j - 1], ms[j - 1]);
      NestedStaysPut(ss[j - 1], ms[j - 1]);
    }
    if j < |ms| && ms[j].Deliver? {
      AbsorbDelegates(World(ss[j].child.value, ss[j].log), ss[j].log[ss[j].next], ms[j].env);
    }
  }

  lemma NestedStaysPut(s: System, m: Move)
    requires Enabled(s, m) && s.child.Some? && s.child.value.delegating && Do(s, m).child.Some?
    ensures Do(s, m).child.value.delegating
  {
    hide SetState, Handle;
    if m.Deliver? {
      HandleDelegates(World(s.child.value, s.log), s.log[s.next], m.env);
    }
  }
}
