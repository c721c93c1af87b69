/** How an action travels through the confirmation handshake, what lets the agent go on, and what stops it. */
module AgentHandshake {
  import opened Events
  import opened AgentCore
  import opened AgentRuns
  import opened AgentRecalls

  // ---- asking ----

  /** A step that issues a runnable action asks exactly for the actions that must be confirmed, and for
      those that already come marked so; the published action carries the mark. */
  lemma IssueAsksForConfirmation(w: World, env: Env)
    requires StepIssues(w.core, env)
    ensures var a := env.outcome.action;
            var r := Step(w, env).core;
            var asks := MustConfirm(w.core.cfg, a, env.outcome.risk) || a.confirmation == Some(AWAITING_CONFIRMATION);
            && r.state == (if asks then AWAITING_USER_CONFIRMATION else RUNNING)
            && r.pending.Some?
            && (r.pending.value.confirmation == Some(AWAITING_CONFIRMATION) <==> asks)
  {
    hide SetState;
  }

  /** Without confirmation mode nothing has to be confirmed, in the command-line mode everything has;
      otherwise it takes a high risk, or the lack of any analyzer. */
  lemma WhenConfirmationIsNeeded(cfg: Config, a: Event, risk: Risk)
    requires a.body.Runnable?
    ensures !cfg.stateConfirmation ==> !MustConfirm(cfg, a, risk)
    ensures cfg.stateConfirmation && cfg.agent.cliMode ==> MustConfirm(cfg, a, risk)
    ensures cfg.stateConfirmation && !cfg.agent.cliMode && !cfg.askConfirmation ==> !MustConfirm(cfg, a, risk)
    ensures cfg.stateConfirmation && !cfg.agent.cliMode && cfg.askConfirmation ==>
              (MustConfirm(cfg, a, risk) <==> !cfg.hasAnalyzer || risk == HIGH)
  {
  }

  // ---- the handshake over whole runs ----

  /** The turn enters USER_CONFIRMED or USER_REJECTED. */
  predicate Decides(w: World, t: Turn) {
    var s := Take(w, t).core.state;
    s != w.core.state && (s == USER_CONFIRMED || s == USER_REJECTED)
  }

  /** The pending action after a turn that does not release it. */
  function Decided(w: World, t: Turn): Event
    requires w.core.pending.Some?
  {
    var p := w.core.pending.value;
    if Decides(w, t)
    then p.(id := |w.log|, source := Some(AGENT), confirmation := Some(Mark(Take(w, t).core.state)))
    else p
  }

  lemma AbsorbLeavesThePending(w: World, e: Event, env: Env)
    requires w.core.pending.Some? && !e.hidden
    requires !ReleasedByAnswer(w, Handles(e, env)) && !ReleasedByUserMessage(w, Handles(e, env))
    ensures var (p, r) := (w.core.pending.value, Absorb(w, e, env).0);
            || (Halting(r.core.state) && r.core.state != w.core.state)
            || r.core.pending == Some(
                 if r.core.state != w.core.state && (r.core.state == USER_CONFIRMED || r.core.state == USER_REJECTED)
                 then p.(id := |w.log|, source := Some(AGENT), confirmation := Some(Mark(r.core.state)))
                 else p)
    ensures var r := Absorb(w, e, env).0;
            r.core.state != w.core.state && (r.core.state == USER_CONFIRMED || r.core.state == USER_REJECTED) ==>
              r.core.pending.Some? && |r.log| > |w.log| && r.log[|w.log|] == r.core.pending.value
  {
    hide SetState, HandleLoopRecovery;
    if e.body.LoopRecovery? {
      RecoveryLeavesThePending(World(AddHistory(w.core, e), w.log), e.body.option);
    } else if e.body.ChangeState? && !Halting(e.body.target) {
      SetStateDecides(World(AddHistory(w.core, e), w.log), e.body.target);
    }
  }

  lemma SetStateDecides(w: World, s: AgentState)
    requires w.core.pending.Some? && !Halting(s)
    ensures SetState(w, s).core.pending == Some(
              if s != w.core.state && (s == USER_CONFIRMED || s == USER_REJECTED)
              then w.core.pending.value.(id := |w.log|, source := Some(AGENT), confirmation := Some(Mark(s)))
              else w.core.pending.value)
    ensures s != w.core.state && (s == USER_CONFIRMED || s == USER_REJECTED) ==>
              |SetState(w, s).log| > |w.log| && SetState(w, s).log[|w.log|] == SetState(w, s).core.pending.value
  {
  }

  lemma RecoveryLeavesThePending(w: World, option: int)
    requires w.core.pending.Some?
    requires !(option == 2 && w.core.stuck.Some? && LastUserMessage(w.core.history).Some?)
    ensures var r := HandleLoopRecovery(w, option);
            || (Halting(r.core.state) && r.core.state != w.core.state)
            || (r.core.pending == w.core.pending
                && (r.core.state == w.core.state || r.core.state == AWAITING_USER_INPUT || r.core.state == STOPPED))
  {
    hide SetState;
  }

  /** A turn that does not release the pending action leaves it as it is, unless it decides about it: then the
      action carries the mark of the state entered and the next id, and is published so. */
  lemma TurnLeavesThePending(w: World, t: Turn)
    requires w.core.pending.Some? && !Releases(w, t)
    ensures Take(w, t).core.pending == Some(Decided(w, t))
    ensures Decides(w, t) ==> |Take(w, t).log| > |w.log| && Take(w, t).log[|w.log|] == Decided(w, t)
  {
    hide SetState, Absorb, ReleasedByAnswer, ReleasedByUserMessage, ShouldStep;
    match t
    case Handles(e, env) =>
      if !e.hidden {
        AbsorbLeavesThePending(w, e, env);
      }
    case SetTo(s) =>
      if !Halting(s) {
        SetStateDecides(w, s);
      }
    case _ =>
  }

  /** The last of the turns from `i` on and before `n` that decided. */
  function LastDecision(ws: seq<World>, ts: seq<Turn>, i: nat, n: nat): (k: Option<nat>)
    requires i <= n <= |ts| < |ws|
    ensures k.Some? ==> i <= k.value < n
  {
    if n == i then None
    else if Decides(ws[n - 1], ts[n - 1]) then Some(n - 1)
    else LastDecision(ws, ts, i, n - 1)
  }

  lemma {:induction false} LastDecisionIsLast(ws: seq<World>, ts: seq<Turn>, i: nat, n: nat)
    requires i <= n <= |ts| < |ws|
    ensures var k := LastDecision(ws, ts, i, n);
            && (k.Some? ==> Decides(ws[k.value], ts[k.value]))
            && (forall m :: (if k.Some? then k.value + 1 else i) <= m < n ==> !Decides(ws[m], ts[m]))
  {
    hide Decides;
    if n > i && !Decides(ws[n - 1], ts[n - 1]) {
      LastDecisionIsLast(ws, ts, i, n - 1);
    }
  }

  /** The pending action as the last decision left it. */
  function AsDecided(ws: seq<World>, ts: seq<Turn>, i: nat, n: nat, a: Event): Event
    requires i <= n <= |ts| < |ws|
  {
    var k := LastDecision(ws, ts, i, n);
    if k.None? then a
    else a.(id := |ws[k.value].log|, source := Some(AGENT), confirmation := Some(Mark(ws[k.value + 1].core.state)))
  }

  /** From the moment an action is pending until it is released, it is exactly as the last decision left it. */
  lemma {:induction false} PendingIsAsDecided(ws: seq<World>, ts: seq<Turn>, i: nat, n: nat)
    requires IsTurnRun(ws, ts) && i <= n <= |ts| && ws[i].core.pending.Some?
    requires forall m :: i <= m < n ==> !Releases(ws[m], ts[m])
    ensures ws[n].core.pending == Some(AsDecided(ws, ts, i, n, ws[i].core.pending.value))
    ensures var k := LastDecision(ws, ts, i, n);
            k.Some? ==> |ws[k.value + 1].log| > |ws[k.value].log|
                        && Some(ws[k.value + 1].log[|ws[k.value].log|]) == ws[n].core.pending
    decreases n
  {
    hide Take, Releases, Decides;
    if n > i {
      PendingIsAsDecided(ws, ts, i, n - 1);
      TurnLeavesThePending(ws[n - 1], ts[n - 1]);
      assert ws[n] == Take(ws[n - 1], ts[n - 1]);
    }
  }

  lemma {:induction false} StateWasLeft(ws: seq<World>, i: nat, j: nat, s: AgentState) returns (k: nat)
    requires i <= j < |ws| && ws[i].core.state == s && ws[j].core.state != s
    ensures i <= k < j && ws[k].core.state == s && ws[k + 1].core.state != s
    decreases j - i
  {
    if ws[i + 1].core.state != s {
      k := i;
    } else {
      k := StateWasLeft(ws, i + 1, j, s);
    }
  }

  lemma AskingWaits(w: World, t: Turn)
    requires Issues(w, t) && Take(w, t).core.pending.value.confirmation == Some(AWAITING_CONFIRMATION)
    ensures Take(w, t).core.state == AWAITING_USER_CONFIRMATION
  {
    hide SetState, Absorb;
  }

  /** The stream holds the event at the position its id names. */
  predicate IsAt(log: seq<Event>, e: Event) {
    0 <= e.id < |log| && log[e.id] == e
  }

  /** Turn i issued an action marked for confirmation, and turn j is an observation that frees it. */
  ghost predicate AskedAndFreed(ws: seq<World>, ts: seq<Turn>, i: nat, j: nat) {
    && i < j < |ts| < |ws| && Issues(ws[i], ts[i])
    && ws[i + 1].core.pending.Some? && ws[i + 1].core.pending.value.confirmation == Some(AWAITING_CONFIRMATION)
    && ReleasedByAnswer(ws[j], ts[j]) && forall m :: i < m < j ==> !Releases(ws[m], ts[m])
  }

  /** In between nothing else was issued and the agent was taken out of its waiting. The freed action is the one
      issued, and the observation names its id, if the user never decided; otherwise it carries the mark of the last
      decision and the id under which that decision published it, and the observation names that one. Either way it
      is the event of the stream with that id. */
  ghost predicate FreedAsDecided(ws: seq<World>, ts: seq<Turn>, i: nat, j: nat)
    requires AskedAndFreed(ws, ts, i, j)
  {
    var freed := AsDecided(ws, ts, i + 1, j, ws[i + 1].core.pending.value);
    && ws[j].core.pending == Some(freed) && ts[j].e.cause == Some(freed.id)
    && (forall m :: i < m < j ==> !Issues(ws[m], ts[m]))
    && (exists k :: i < k < j && ws[k].core.state == AWAITING_USER_CONFIRMATION
                    && ws[k + 1].core.state != AWAITING_USER_CONFIRMATION)
    && (exists k :: i < k <= j && IsAt(ws[k].log, freed))
  }

  /** The handshake, in any run from the issue of an action marked for confirmation to the observation that frees it. */
  lemma HandshakeInEveryRun(ws: seq<World>, ts: seq<Turn>, i: nat, j: nat)
    requires IsTurnRun(ws, ts) && AskedAndFreed(ws, ts, i, j)
    ensures FreedAsDecided(ws, ts, i, j)
  {
    hide Take, Releases, Issues, Decides;
    assert ws[i + 1] == Take(ws[i], ts[i]);
    AskingWaits(ws[i], ts[i]);
    assert ws[j].core.state != AWAITING_USER_CONFIRMATION && ts[j].e.cause == Some(ws[j].core.pending.value.id);
    var k := StateWasLeft(ws, i + 1, j, AWAITING_USER_CONFIRMATION);
    PendingIsAsDecided(ws, ts, i + 1, j);
    IssuedActionIsHeld(ws[i], ts[i]);
    var last := LastDecision(ws, ts, i + 1, j);
    if last.Some? {
      assert IsAt(ws[last.value + 1].log, ws[j].core.pending.value);
    } else {
      assert IsAt(ws[i + 1].log, ws[j].core.pending.value);
    }
    forall m | i < m < j ensures !Issues(ws[m], ts[m]) {
      PendingIsAsDecided(ws, ts, i + 1, m);
      SlotIsKept(ws[m], ts[m], ws[m].core.pending.value);
    }
  }

  /** In confirmation mode: any action of the command line, and one of high risk or without an analyzer where
      confirmation is asked for. */
  predicate Risky(cfg: Config, t: Turn) {
    && (t.Steps? || t.Handles?) && t.env.outcome.Act? && cfg.stateConfirmation
    && (cfg.agent.cliMode || (cfg.askConfirmation && (!cfg.hasAnalyzer || t.env.outcome.risk == HIGH)))
  }

  /** However a run goes on, a risky action is marked confirmed exactly while the last decision about it was a turn
      that entered USER_CONFIRMED. */
  lemma RiskyActionNeedsTheUser(ws: seq<World>, ts: seq<Turn>, i: nat, n: nat)
    requires IsTurnRun(ws, ts) && i < n <= |ts| && Issues(ws[i], ts[i])
    requires Risky(ws[i].core.cfg, ts[i])
    requires forall m :: i < m < n ==> !Releases(ws[m], ts[m])
    ensures ws[n].core.pending.Some?
    ensures ws[n].core.pending.value.confirmation == Some(CONFIRMED) <==>
            var k := LastDecision(ws, ts, i + 1, n); k.Some? && ws[k.value + 1].core.state == USER_CONFIRMED
  {
    hide Take, Releases, Issues;
    assert ws[i + 1] == Take(ws[i], ts[i]);
    RiskyActionIsMarked(ws[i], ts[i]);
    IssuedActionIsHeld(ws[i], ts[i]);
    PendingIsAsDecided(ws, ts, i + 1, n);
    var k := LastDecision(ws, ts, i + 1, n);
    LastDecisionIsLast(ws, ts, i + 1, n);
    if k.Some? {
      assert ws[k.value + 1] == Take(ws[k.value], ts[k.value]);
    }
  }

  lemma RiskyActionIsMarked(w: World, t: Turn)
    requires Issues(w, t) && Risky(w.core.cfg, t)
    ensures Take(w, t).core.pending.Some? && Take(w, t).core.pending.value.confirmation == Some(AWAITING_CONFIRMATION)
  {
    hide SetState, Absorb;
    WhenConfirmationIsNeeded(w.core.cfg, t.env.outcome.action, t.env.outcome.risk);
    if t.Handles? {
      AbsorbKeepsConfig(w, t.e, t.env);
      IssueAsksForConfirmation(Absorb(w, t.e, t.env).0, t.env);
    } else {
      IssueAsksForConfirmation(w, t.env);
    }
  }

  lemma AbsorbKeepsConfig(w: World, e: Event, env: Env)
    ensures Absorb(w, e, env).0.core.cfg == w.core.cfg
  {
    hide SetState, HandleLoopRecovery;
    if e.body.LoopRecovery? {
      RecoveryKeepsConfig(World(AddHistory(w.core, e), w.log), e.body.option);
    }
  }

  lemma RecoveryKeepsConfig(w: World, option: int)
    ensures HandleLoopRecovery(w, option).core.cfg == w.core.cfg
  {
    hide SetState;
  }

  // ---- in the whole system ----

  /** The event that frees an action is a delivered one, and the stream has kept what was published. */
  ghost predicate FreedInStream(s: System, m: Move, w: World) {
    && w.core.pending.Some? && IsAt(s.log, w.core.pending.value)
    && m.Deliver? && s.next < |s.log| && s.log[s.next].cause == Some(w.core.pending.value.id)
  }

  lemma HandledIsDelivered(s: System, m: Move)
    requires Enabled(s, m) && ParentTurn(s, m).Handles?
    ensures m.Deliver? && ParentTurn(s, m).e == s.log[s.next]
  {
  }

  /** The handshake of the root controller in every run of the whole system, its delegates included. */
  lemma RootHandshake(ss: seq<System>, ms: seq<Move>, i: nat, j: nat)
    requires IsRun(ss, ms) && AskedAndFreed(RootWorlds(ss), RootTurns(ss, ms), i, j)
    ensures FreedAsDecided(RootWorlds(ss), RootTurns(ss, ms), i, j)
    ensures FreedInStream(ss[j], ms[j], ParentWorld(ss[j]))
  {
    hide AskedAndFreed, FreedAsDecided, ParentTurn, Do;
    var ws, ts := RootWorlds(ss), RootTurns(ss, ms);
    RootTakesTurns(ss, ms);
    HandshakeInEveryRun(ws, ts, i, j);
    var n := PublishedAt(ws, ts, i, j);
    HandledIsDelivered(ss[j], ms[j]);
    StreamOnlyGrows(ss, ms, n, j);
  }

  /** And of a delegate, in every part of a run through which it lives; such a part is a run by PartOfARun. A delegate
      has no confirmation mode, so it asks only for an action that comes already marked. */
  lemma DelegateHandshake(ss: seq<System>, ms: seq<Move>, i: nat, j: nat)
    requires IsRun(ss, ms) && DelegateLives(ss) && AskedAndFreed(DelegateWorlds(ss), DelegateTurns(ss, ms), i, j)
    ensures FreedAsDecided(DelegateWorlds(ss), DelegateTurns(ss, ms), i, j)
    ensures FreedInStream(ss[j], ms[j], ChildWorld(ss[j]))
  {
    hide AskedAndFreed, FreedAsDecided, Do;
    var ws, ts := DelegateWorlds(ss), DelegateTurns(ss, ms);
    DelegateTakesTurns(ss, ms);
    HandshakeInEveryRun(ws, ts, i, j);
    var n := PublishedAt(ws, ts, i, j);
    StreamOnlyGrows(ss, ms, n, j);
  }

  lemma PublishedAt(ws: seq<World>, ts: seq<Turn>, i: nat, j: nat) returns (n: nat)
    requires AskedAndFreed(ws, ts, i, j) && FreedAsDecided(ws, ts, i, j)
    ensures i < n <= j < |ts| < |ws| && ws[j].core.pending.Some? && IsAt(ws[n].log, ws[j].core.pending.value)
    ensures ts[j].Handles? && ts[j].e.cause == Some(ws[j].core.pending.value.id)
  {
    var freed := AsDecided(ws, ts, i + 1, j, ws[i + 1].core.pending.value);
    n :| i < n <= j && IsAt(ws[n].log, freed);
  }

  // ---- going on ----

  /** The observation that answers the pending action of a running agent makes it take its next step. */
  lemma AnswerLetsTheAgentStep(w: World, e: Event, env: Env)
    requires !w.core.delegating && !e.hidden && w.core.state in {RUNNING, USER_CONFIRMED} && Answers(w.core, e)
    requires !e.body.StateChanged? && (e.body.NullObservation? ==> e.cause.value > 0)
    ensures var ready := Absorb(w, e, env).0;
            MayStep(ready.core) && Handle(w, e, env) == (Step(ready, env), None)
  {
    hide SetState, Step;
  }

  /** A user message never leaves the agent idle: it runs with the recall pending, and the observation that
      answers the recall makes it step. */
  lemma UserMessageWakesTheAgent(w: World, m: Event, env: Env, answer: Event, env': Env)
    requires !w.core.delegating && !m.hidden && m.IsUserMessage() && |w.log| > 0
    requires answer.IsObservation() && !answer.hidden && !answer.body.StateChanged? && answer.cause == Some(|w.log|)
    ensures var r := Handle(w, m, env).0;
            && r.core.state == RUNNING && r.core.pending.Some?
            && r.core.pending.value.body.Recall? && r.core.pending.value.id == |w.log|
            && Handle(r, answer, env') == (Step(Absorb(r, answer, env').0, env'), None)
  {
    hide SetState, Step;
    UserMessageIsHeld(w, m, env);
    hide Handle;
    AnswerLetsTheAgentStep(Handle(w, m, env).0, answer, env');
  }

  lemma UserMessageIsHeld(w: World, m: Event, env: Env)
    requires !w.core.delegating && !m.hidden && m.IsUserMessage()
    ensures var r := Handle(w, m, env).0.core;
            && r.state == RUNNING && !r.delegating && r.pending.Some?
            && r.pending.value.body.Recall? && r.pending.value.id == |w.log|
  {
    hide SetState;
  }

  // ---- stopping ----

  /** The first event after a delegate finished, was rejected or failed ends it, whatever that event is, and
      leaves the parent as it was. A delegate whose last error is the iteration limit is never ended so: it
      goes on receiving events, in any state. */
  lemma DelegateEndsWhenDone(s: System, m: Move)
    requires Enabled(s, m) && m.Deliver? && s.child.Some?
    ensures var child := s.child.value;
            Do(s, m).child.None? <==>
              child.state in {FINISHED, ERROR, REJECTED} && child.lastError != IterationLimitReached
    ensures Do(s, m).child.None? ==> Do(s, m).parent == s.parent.(delegating := false)
  {
    hide SetState, Handle;
  }
}
