/** Replaying a recorded trajectory: which events are kept, and that the cursor hands out exactly their actions. */
module Replay {
  import opened Events

  predicate Retained(e: Event) {
    e.source != Some(ENVIRONMENT) && !e.body.NullObservation?
  }

  /** The retained events, in order. */
  function Keep(events: seq<Event>): seq<Event> {
    if events == [] then []
    else
      var last := events[|events| - 1];
      Keep(events[..|events| - 1]) + if Retained(last) then [last] else []
  }

  function DoNotWait(e: Event): Event {
    if e.body.Message? then e.(body := Message(e.body.content, false)) else e
  }

  /** Only the final event may still wait for a response. */
  function Disarm(events: seq<Event>): seq<Event> {
    seq(|events|, i requires 0 <= i < |events| => if i < |events| - 1 then DoNotWait(events[i]) else events[i])
  }

  function Prepare(events: seq<Event>): seq<Event> {
    Disarm(Keep(events))
  }

  function Actions(events: seq<Event>): seq<Event> {
    if events == [] then []
    else (if events[0].IsAction() then [events[0]] else []) + Actions(events[1..])
  }

  // ---- preparation is a stable filter ----

  /** Every retained event is kept, at the place the retained events before it leave for it, and
      nothing else is kept. */
  lemma {:induction false} KeepIsStable(events: seq<Event>, i: nat)
    requires i <= |events|
    ensures Keep(events[..i]) <= Keep(events)
    ensures forall k :: 0 <= k < |Keep(events)| ==> Retained(Keep(events)[k])
    ensures i < |events| && events[i].source != Some(ENVIRONMENT) && !events[i].body.NullObservation? ==>
              |Keep(events[..i])| < |Keep(events)| && Keep(events)[|Keep(events[..i])|] == events[i]
    ensures i < |events| && (events[i].source == Some(ENVIRONMENT) || events[i].body.NullObservation?) ==>
              Keep(events[..i + 1]) == Keep(events[..i])
    decreases |events|
  {
    if i < |events| {
      assert events[..i + 1][..i] == events[..i];
      if i + 1 == |events| {
        assert events[..i + 1] == events;
        KeepIsStable(events[..i], i);
        assert events[..i][..i] == events[..i];
      } else {
        var shorter := events[..|events| - 1];
        KeepIsStable(shorter, i);
        assert shorter[..i] == events[..i];
      }
    } else {
      assert events[..i] == events;
      if events != [] {
        KeepIsStable(events[..|events| - 1], |events| - 1);
      }
    }
  }

  /** Preparing changes nothing but the waiting flag of a message, and sets that to false. */
  lemma PrepareOnlyClearsWaiting(events: seq<Event>, i: nat)
    requires i < |Keep(events)|
    ensures |Prepare(events)| == |Keep(events)|
    ensures var (e, r) := (Keep(events)[i], Prepare(events)[i]);
            if e.body.Message? && i < |Keep(events)| - 1
            then r == e.(body := r.body) && r.body == Message(e.body.content, false)
            else r == e
  {
  }

  lemma {:induction false} ActionsOfBoth(a: seq<Event>, b: seq<Event>)
    ensures Actions(a + b) == Actions(a) + Actions(b)
  {
    if a == [] {
      assert a + b == b;
    } else {
      assert (a + b)[1..] == a[1..] + b;
      ActionsOfBoth(a[1..], b);
    }
  }

  lemma {:induction false} ActionsAreActions(events: seq<Event>)
    ensures forall k :: 0 <= k < |Actions(events)| ==> Actions(events)[k].IsAction()
  {
    if events != [] {
      ActionsAreActions(events[1..]);
    }
  }

  /** Every action stands at the place the actions before it leave for it, and nothing else does. */
  lemma ActionsAreStable(events: seq<Event>, i: nat)
    requires i < |events|
    ensures Actions(events[..i]) <= Actions(events)
    ensures events[i].IsAction() ==>
              |Actions(events[..i])| < |Actions(events)| && Actions(events)[|Actions(events[..i])|] == events[i]
    ensures !events[i].IsAction() ==> Actions(events[..i + 1]) == Actions(events[..i])
    ensures forall k :: 0 <= k < |Actions(events)| ==> Actions(events)[k].IsAction()
  {
    ActionsAreActions(events);
    ActionsOfBoth(events[..i], events[i..]);
    ActionsOfBoth(events[..i], [events[i]]);
    assert events[..i] + events[i..] == events && events[..i] + [events[i]] == events[..i + 1];
    assert [events[i]][1..] == [];
  }

  lemma {:induction false} KeepAll(events: seq<Event>)
    requires forall k :: 0 <= k < |events| ==> Retained(events[k])
    ensures Keep(events) == events
  {
    if events != [] {
      KeepAll(events[..|events| - 1]);
    }
  }

  lemma PrepareIsIdempotent(events: seq<Event>)
    ensures Prepare(Prepare(events)) == Prepare(events)
  {
    KeepIsStable(events, |events|);
    KeepAll(Prepare(events));
  }

  lemma OnlyTheLastMayWait(events: seq<Event>, i: nat)
    requires i < |Prepare(events)| && Prepare(events)[i].body.Message? && Prepare(events)[i].body.waitForResponse
    ensures i == |Prepare(events)| - 1 && Prepare(events)[i] == Keep(events)[i]
  {
  }

  // ---- decoding a trajectory ----

  function EraseId(e: Event): Event {
    e.(id := INVALID_ID)
  }

  function EraseIds(events: seq<Event>): seq<Event> {
    seq(|events|, i requires 0 <= i < |events| => EraseId(events[i]))
  }

  /** Keeps what is neither from the environment; null observations stay, as in the source. */
  function Loaded(events: seq<Event>): seq<Event> {
    if events == [] then []
    else
      var last := events[|events| - 1];
      Loaded(events[..|events| - 1]) + if last.source != Some(ENVIRONMENT) then [EraseId(last)] else []
  }

  /** Every event that is not from the environment stands, without its id, at the place those before it leave for
      it, and nothing else does. */
  lemma {:induction false} LoadedIsStable(events: seq<Event>, i: nat)
    requires i < |events|
    ensures Loaded(events[..i]) <= Loaded(events)
    ensures events[i].source != Some(ENVIRONMENT) ==>
              |Loaded(events[..i])| < |Loaded(events)|
              && Loaded(events)[|Loaded(events[..i])|] == events[i].(id := INVALID_ID)
    ensures events[i].source == Some(ENVIRONMENT) ==> Loaded(events[..i + 1]) == Loaded(events[..i])
    decreases |events|
  {
    var shorter := events[..|events| - 1];
    assert events[..i + 1][..i] == events[..i];
    if i + 1 == |events| {
      assert events[..i + 1] == events;
    } else {
      LoadedIsStable(shorter, i);
      assert shorter[..i] == events[..i];
    }
  }

  function Decoded<T>(trajectory: seq<T>, decode: T -> Option<Event>): seq<Event>
    requires forall i :: 0 <= i < |trajectory| ==> decode(trajectory[i]).Some?
  {
    seq(|trajectory|, i requires 0 <= i < |trajectory| => decode(trajectory[i]).value)
  }

  /** Decodes a trajectory; an item that cannot be decoded fails the whole call. */
  method GetReplayEvents<T>(trajectory: seq<T>, decode: T -> Option<Event>) returns (r: Option<seq<Event>>)
    ensures r.Some? <==> forall i :: 0 <= i < |trajectory| ==> decode(trajectory[i]).Some?
    ensures r.Some? ==> r.value == Loaded(Decoded(trajectory, decode))
    ensures r.Some? ==> forall k :: 0 <= k < |r.value| ==> r.value[k].id == INVALID_ID
  {
    var events := [];
    for i := 0 to |trajectory|
      invariant forall k :: 0 <= k < i ==> decode(trajectory[k]).Some?
      invariant events == Loaded(Decoded(trajectory[..i], decode))
      invariant forall k :: 0 <= k < |events| ==> events[k].id == INVALID_ID
    {
      var event := decode(trajectory[i]);
      if event.None? {
        return None;
      }
      assert Decoded(trajectory[..i + 1], decode)[..i] == Decoded(trajectory[..i], decode);
      if event.value.source != Some(ENVIRONMENT) {
        events := events + [EraseId(event.value)];
      }
    }
    assert trajectory[..|trajectory|] == trajectory;
    return Some(events);
  }

  lemma {:induction false} KeepOfLoaded(events: seq<Event>)
    ensures Keep(Loaded(events)) == EraseIds(Keep(events))
  {
    if events != [] {
      var front := events[..|events| - 1];
      KeepOfLoaded(front);
      var e := events[|events| - 1];
      if e.source != Some(ENVIRONMENT) {
        assert Loaded(events)[..|Loaded(events)| - 1] == Loaded(front);
        assert EraseIds(Keep(front) + [e]) == EraseIds(Keep(front)) + [EraseId(e)];
      } else {
        assert Loaded(events) == Loaded(front) && Keep(events) == Keep(front);
      }
    }
  }

  /** Replaying a loaded trajectory is replaying the decoded one, up to the erased ids. */
  lemma PrepareOfLoaded(events: seq<Event>)
    ensures Prepare(Loaded(events)) == EraseIds(Prepare(events))
  {
    KeepOfLoaded(events);
  }

  // ---- the cursor ----

  class ReplayManager {
    var replayEvents: seq<Event>
    var replayMode: bool
    var replayIndex: nat

    ghost predicate Valid()
      reads this
    {
      replayIndex <= |replayEvents| && (replayMode <==> replayEvents != [])
    }

    /** The actions that are still to be replayed. */
    ghost function Remaining(): seq<Event>
      reads this
      requires Valid()
    {
      Actions(replayEvents[replayIndex..])
    }

    predicate Replayable()
      reads this
    {
      replayIndex < |replayEvents| && replayEvents[replayIndex].IsAction()
    }

    constructor (events: seq<Event>)
      ensures Valid() && replayIndex == 0
      ensures replayEvents == Prepare(events)
    {
      var kept := [];
      for i := 0 to |events|
        invariant kept == Keep(events[..i])
      {
        assert events[..i + 1][..i] == events[..i];
        if events[i].source != Some(ENVIRONMENT) && !events[i].body.NullObservation? {
          kept := kept + [events[i]];
        }
      }
      assert events[..|events|] == events;
      ghost var all := kept;
      if kept != [] {
        for index := 0 to |kept| - 1
          invariant |kept| == |all|
          invariant forall k :: 0 <= k < index ==> kept[k] == DoNotWait(all[k])
          invariant forall k :: index <= k < |kept| ==> kept[k] == all[k]
        {
          if kept[index].body.Message? && kept[index].body.waitForResponse {
            kept := kept[index := kept[index].(body := Message(kept[index].body.content, false))];
          }
        }
      }
      replayEvents := kept;
      replayMode := kept != [];
      replayIndex := 0;
    }

    /** Moves to the next action. Asking again moves nothing, and once there is no action left the
        answer stays negative. */
    method ShouldReplay() returns (r: bool)
      requires Valid()
      modifies this`replayIndex
      ensures Valid() && Remaining() == old(Remaining())
      ensures r <==> Remaining() != []
      ensures r ==> Replayable()
      ensures old(Replayable()) ==> replayIndex == old(replayIndex)
    {
      if !replayMode {
        return false;
      }
      while replayIndex < |replayEvents| && !Replayable()
        invariant Valid() && Remaining() == old(Remaining())
        invariant old(Replayable()) ==> replayIndex == old(replayIndex)
        decreases |replayEvents| - replayIndex
      {
        assert replayEvents[replayIndex..][1..] == replayEvents[replayIndex + 1..];
        replayIndex := replayIndex + 1;
      }
      return Replayable();
    }

    method Step() returns (e: Event)
      requires Valid() && Replayable()
      modifies this`replayIndex
      ensures Valid() && old(Remaining()) == [e] + Remaining()
    {
      assert replayEvents[replayIndex..][1..] == replayEvents[replayIndex + 1..];
      e := replayEvents[replayIndex];
      replayIndex := replayIndex + 1;
    }
  }

  /** The replay part of the agent's step, repeated until it has nothing to replay: it yields exactly the
      recorded actions, each once and in order. */
  method ReplayAll(events: seq<Event>) returns (out: seq<Event>)
    ensures out == Actions(Prepare(events))
  {
    var manager := new ReplayManager(events);
    assert manager.replayEvents[0..] == manager.replayEvents;
    out := [];
    var more := manager.ShouldReplay();
    while more
      invariant manager.Valid() && fresh(manager)
      invariant out + manager.Remaining() == Actions(Prepare(events))
      invariant more <==> manager.Remaining() != []
      invariant more ==> manager.Replayable()
      decreases |manager.Remaining()|
    {
      var e := manager.Step();
      out := out + [e];
      more := manager.ShouldReplay();
    }
  }
}
