/** Recovery from a detected loop: truncation of the history and restart with the last user message. */
module LoopRecoveryProofs {
  import opened Events
  import opened AgentCore

  function Min(a: nat, b: nat): nat {
    if a < b then a else b
  }

  /** Truncating twice is truncating once at the smaller point, bookkeeping included. */
  lemma TruncateTwice(c: Core, p: nat, q: nat)
    ensures Truncate(Truncate(c, p), q) == Truncate(c, Min(p, q))
  {
    if p < |c.history| && q < p {
      assert c.history[..p][..q] == c.history[..q];
    }
  }

  lemma TruncateIsPrefix(c: Core, p: nat)
    ensures Truncate(c, p).history == c.history[..Min(p, |c.history|)]
    ensures p < |c.history| ==>
              Truncate(c, p).endId == (if p == 0 then -1 else c.history[p - 1].id) && Truncate(c, p).cachedFirst.None?
  {
  }

  predicate LastUserMessageAt(history: seq<Event>, i: nat) {
    && i < |history| && history[i].IsUserMessage()
    && forall j :: i < j < |history| ==> !history[j].IsUserMessage()
  }

  lemma {:induction false} LastUserMessageIsLast(history: seq<Event>)
    ensures LastUserMessage(history).None? <==> forall i :: 0 <= i < |history| ==> !history[i].IsUserMessage()
    ensures LastUserMessage(history).Some? ==>
              exists i: nat :: LastUserMessageAt(history, i) && history[i] == LastUserMessage(history).value
  {
    if history != [] {
      var n := |history| - 1;
      if history[n].IsUserMessage() {
        assert LastUserMessageAt(history, n);
      } else {
        var shorter := history[..n];
        LastUserMessageIsLast(shorter);
        assert forall j :: 0 <= j < n ==> shorter[j] == history[j];
        if i: nat :| LastUserMessageAt(shorter, i) && shorter[i] == LastUserMessage(shorter).value {
          assert LastUserMessageAt(history, i);
        }
      }
    }
  }

  /** The user message that option 2 re-uses, looked for before anything is cut off. */
  function Instruction(w: World, e: Event): Option<Event> {
    LastUserMessage(AddHistory(w.core, e).history)
  }

  /** Options 1 and 2 keep exactly the history before the loop. Option 2 goes on with the last user
      message if there is one; otherwise the user has to speak. The handler does not step. */
  lemma RecoveryKeepsExactPrefix(w: World, e: Event, env: Env)
    requires !e.hidden && e.body.LoopRecovery? && e.body.option in {1, 2} && w.core.stuck.Some?
    ensures var r := Handle(w, e, env).0.core;
            var whole := AddHistory(w.core, e).history;
            && r.history == whole[..Min(w.core.stuck.value, |whole|)]
            && (e.body.option == 2 && Instruction(w, e).Some? ==>
                  && r.state == RUNNING && r.pending.Some? && r.pending.value.body.Recall?
                  && r.pending.value.body.query == Instruction(w, e).value.body.content)
            && (e.body.option == 1 || Instruction(w, e).None? ==>
                  r.state == AWAITING_USER_INPUT && r.pending == w.core.pending)
  {
    hide SetState;
  }

  lemma RecoveryOption3Stops(w: World, e: Event, env: Env)
    requires !e.hidden && e.body == LoopRecovery(3) && w.core.stuck.Some?
    ensures Handle(w, e, env).0.core.state == STOPPED
    ensures Handle(w, e, env).0.core.history == AddHistory(w.core, e).history
    ensures w.core.state != STOPPED ==> Handle(w, e, env).0.core.pending.None?
  {
    hide SetState;
  }
}
