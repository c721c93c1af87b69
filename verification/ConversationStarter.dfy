/** Collecting the workflow runs of one commit of a pull request until none is pending, and starting one
    conversation about them if one failed. */
module ConversationStarter {
  import opened Events

  datatype Status = FAILURE | COMPLETED | PENDING

  datatype WorkflowRun = WorkflowRun(id: string, name: string, status: Status)

  type Group = map<string, WorkflowRun>

  datatype EntryKey = EntryKey(repo: string, pr: int, commit: string)

  datatype Entry = Entry(runs: Group, sent: bool)

  /** No run is pending and at least one failed. */
  predicate Ready(g: Group) {
    && (forall id :: id in g ==> g[id].status != PENDING)
    && (exists id :: id in g && g[id].status == FAILURE)
  }

  /** One delivery of a run for an entry; `initial` are the runs fetched if there is no entry yet. */
  function Deliver(entry: Option<Entry>, initial: Group, run: WorkflowRun): (Option<Entry>, Option<Group>) {
    if entry.Some? && entry.value.sent then (entry, None)
    else
      var runs := (if entry.Some? then entry.value.runs else initial)[run.id := run];
      (Some(Entry(runs, Ready(runs))), if Ready(runs) then Some(runs) else None)
  }

  class ProactiveConversationStore {
    var entries: map<EntryKey, Entry>

    method StoreWorkflowInformation(key: EntryKey, initial: Group, run: WorkflowRun) returns (r: Option<Group>)
      modifies this
      ensures var (e, g) := Deliver(if key in old(entries) then Some(old(entries)[key]) else None, initial, run);
              r == g && e.Some? && entries == old(entries)[key := e.value]
      ensures r.Some? ==> entries[key] == Entry(r.value, true)
      ensures var sent := key in old(entries) && old(entries)[key].sent;
              var runs := (if key in old(entries) then old(entries)[key].runs else initial)[run.id := run];
              && (r.Some? <==> !sent && (forall id :: id in runs ==> runs[id].status in {FAILURE, COMPLETED})
                               && FAILURE in set id | id in runs :: runs[id].status)
              && (r.Some? ==> r.value == runs)
              && (!sent ==> entries == old(entries)[key := Entry(runs, r.Some?)])
      ensures key in old(entries) && old(entries)[key].sent ==> r.None? && entries == old(entries)
    {
      if key in entries && entries[key].sent {
        assert entries[key := entries[key]] == entries;
        return None;
      }
      var group := if key in entries then entries[key].runs else initial;
      group := group[run.id := run];
      var shouldSend := false;
      var nonePending := forall id :: id in group ==> group[id].status != PENDING;
      if nonePending {
        shouldSend := exists id :: id in group && group[id].status == FAILURE;
      }
      r := if shouldSend then Some(group) else None;
      entries := entries[key := Entry(group, shouldSend)];
    }

    /** Entries last updated before the cutoff are forgotten. */
    method CleanOldConvos(lastUpdated: map<EntryKey, int>, cutoff: int)
      modifies this
      ensures entries == map k | k in old(entries) && !(k in lastUpdated && lastUpdated[k] < cutoff) :: old(entries)[k]
    {
      entries := map k | k in entries && !(k in lastUpdated && lastUpdated[k] < cutoff) :: entries[k];
    }
  }

  // ---- a sequence of deliveries for one entry ----

  /** Each delivery comes with the runs that would be fetched for it; only those of the first are used. */
  datatype Delivery = Delivery(initial: Group, run: WorkflowRun)

  function EntryAfter(ds: seq<Delivery>): Option<Entry> {
    if ds == [] then None
    else var last := ds[|ds| - 1]; Deliver(EntryAfter(ds[..|ds| - 1]), last.initial, last.run).0
  }

  /** What the last delivery returns. */
  function Returned(ds: seq<Delivery>): Option<Group>
    requires ds != []
  {
    var last := ds[|ds| - 1]; Deliver(EntryAfter(ds[..|ds| - 1]), last.initial, last.run).1
  }

  /** The reference: the first fetched runs, overridden by the deliveries in order. */
  function Overridden(ds: seq<Delivery>): Group
    requires ds != []
  {
    if |ds| == 1 then ds[0].initial[ds[0].run.id := ds[0].run]
    else var run := ds[|ds| - 1].run; Overridden(ds[..|ds| - 1])[run.id := run]
  }

  /** The overridden runs were ready after exactly the first n deliveries and not before. */
  predicate FirstReady(ds: seq<Delivery>, n: nat) {
    && 1 <= n <= |ds| && Ready(Overridden(ds[..n]))
    && forall m :: 1 <= m < n ==> !Ready(Overridden(ds[..m]))
  }

  /** Up to and including the first time they are ready, the stored runs are the overridden ones. */
  lemma {:induction false} StoredRunsAreOverridden(ds: seq<Delivery>)
    requires ds != [] && forall m :: 1 <= m < |ds| ==> !Ready(Overridden(ds[..m]))
    ensures EntryAfter(ds) == Some(Entry(Overridden(ds), Ready(Overridden(ds))))
    ensures Returned(ds) == if Ready(Overridden(ds)) then Some(Overridden(ds)) else None
  {
    var front := ds[..|ds| - 1];
    if front != [] {
      forall m | 1 <= m < |front| ensures !Ready(Overridden(front[..m])) {
        assert front[..m] == ds[..m];
      }
      StoredRunsAreOverridden(front);
    }
  }

  /** After that, nothing changes and nothing is returned. */
  lemma {:induction false} NothingAfterSending(ds: seq<Delivery>, n: nat)
    requires FirstReady(ds, n) && n < |ds|
    ensures EntryAfter(ds) == Some(Entry(Overridden(ds[..n]), true)) && Returned(ds).None?
  {
    var front := ds[..|ds| - 1];
    assert front[..n] == ds[..n];
    if n < |front| {
      forall m | 1 <= m < n ensures !Ready(Overridden(front[..m])) {
        assert front[..m] == ds[..m];
      }
      NothingAfterSending(front, n);
    } else {
      forall m | 1 <= m < |front| ensures !Ready(Overridden(front[..m])) {
        assert front[..m] == ds[..m];
      }
      StoredRunsAreOverridden(front);
      assert front[..n] == front;
    }
  }

  lemma {:induction false} FirstReadyExists(ds: seq<Delivery>, k: nat) returns (n: nat)
    requires 1 <= k <= |ds| && Ready(Overridden(ds[..k]))
    ensures n <= k && FirstReady(ds, n)
    decreases k
  {
    if m :| 1 <= m < k && Ready(Overridden(ds[..m])) {
      n := FirstReadyExists(ds, m);
    } else {
      n := k;
    }
  }

  /** The group is returned by the delivery that first makes the overridden runs ready, and by no other. */
  lemma ReturnedExactlyAtFirstReady(ds: seq<Delivery>, k: nat)
    requires 1 <= k <= |ds|
    ensures Returned(ds[..k]).Some? <==> FirstReady(ds, k)
    ensures Returned(ds[..k]).Some? ==> Returned(ds[..k]).value == Overridden(ds[..k])
  {
    var front := ds[..k];
    assert front[..k] == front;
    assert forall m :: 1 <= m <= k ==> front[..m] == ds[..m];
    if m :| 1 <= m < k && Ready(Overridden(ds[..m])) {
      var n := FirstReadyExists(front, m);
      NothingAfterSending(front, n);
    } else {
      forall m | 1 <= m < |front| ensures !Ready(Overridden(front[..m])) {
        assert front[..m] == ds[..m];
      }
      StoredRunsAreOverridden(front);
    }
  }

  lemma ReturnedAtMostOnce(ds: seq<Delivery>, j: nat, k: nat)
    requires 1 <= j < k <= |ds|
    ensures Returned(ds[..j]).None? || Returned(ds[..k]).None?
  {
    ReturnedExactlyAtFirstReady(ds, j);
    ReturnedExactlyAtFirstReady(ds, k);
  }

  /** Every reachable entry is marked sent exactly when its stored runs are ready. */
  lemma SentIffReady(ds: seq<Delivery>)
    requires ds != []
    ensures EntryAfter(ds).Some? && (EntryAfter(ds).value.sent <==> Ready(EntryAfter(ds).value.runs))
  {
    if k :| 1 <= k < |ds| && Ready(Overridden(ds[..k])) {
      var n := FirstReadyExists(ds, k);
      NothingAfterSending(ds, n);
    } else {
      StoredRunsAreOverridden(ds);
    }
  }

  // ---- where once-only ends ----

  /** Deliveries for one entry, and cleanings that forget it. */
  datatype Happening = Delivered(delivery: Delivery) | Cleaned

  function EntryThrough(hs: seq<Happening>): Option<Entry> {
    if hs == [] then None
    else
      match hs[|hs| - 1]
      case Cleaned => None
      case Delivered(d) => Deliver(EntryThrough(hs[..|hs| - 1]), d.initial, d.run).0
  }

  function Starts(hs: seq<Happening>): nat {
    if hs == [] then 0
    else
      var front := hs[..|hs| - 1];
      match hs[|hs| - 1]
      case Cleaned => Starts(front)
      case Delivered(d) => Starts(front) + if Deliver(EntryThrough(front), d.initial, d.run).1.Some? then 1 else 0
  }

  /** The deliveries before the first cleaning, between cleanings, and after the last. */
  function Stretches(hs: seq<Happening>): (r: seq<seq<Delivery>>)
    ensures r != []
  {
    if hs == [] then [[]]
    else
      var front := Stretches(hs[..|hs| - 1]);
      match hs[|hs| - 1]
      case Cleaned => front + [[]]
      case Delivered(d) => front[..|front| - 1] + [front[|front| - 1] + [d]]
  }

  /** At some point of the stretch its runs, overridden by the deliveries so far, were ready. */
  predicate BecomesReady(ds: seq<Delivery>) {
    exists m :: 1 <= m <= |ds| && Ready(Overridden(ds[..m]))
  }

  function ReadyStretches(ss: seq<seq<Delivery>>): nat {
    if ss == [] then 0
    else ReadyStretches(ss[..|ss| - 1]) + if BecomesReady(ss[|ss| - 1]) then 1 else 0
  }

  lemma OneMoreDelivery(ds: seq<Delivery>, d: Delivery)
    ensures EntryAfter(ds + [d]) == Deliver(EntryAfter(ds), d.initial, d.run).0
    ensures Returned(ds + [d]) == Deliver(EntryAfter(ds), d.initial, d.run).1
  {
    assert (ds + [d])[..|ds|] == ds;
  }

  lemma BecomesReadyOnce(ds: seq<Delivery>, d: Delivery)
    ensures EntryAfter(ds + [d]) == Deliver(EntryAfter(ds), d.initial, d.run).0
    ensures BecomesReady(ds + [d]) <==> BecomesReady(ds) || Deliver(EntryAfter(ds), d.initial, d.run).1.Some?
    ensures !(BecomesReady(ds) && Deliver(EntryAfter(ds), d.initial, d.run).1.Some?)
  {
    hide EntryAfter, Returned, Overridden, Ready, Deliver;
    var all := ds + [d];
    OneMoreDelivery(ds, d);
    ReturnedExactlyAtFirstReady(all, |all|);
    assert all[..|all|] == all;
    assert forall m :: 1 <= m <= |ds| ==> all[..m] == ds[..m];
  }

  lemma OneMoreStretch(ss: seq<seq<Delivery>>, s: seq<Delivery>)
    ensures ReadyStretches(ss + [s]) == ReadyStretches(ss) + if BecomesReady(s) then 1 else 0
  {
    assert (ss + [s])[..|ss|] == ss;
  }

  lemma AfterACleaning(hs: seq<Happening>)
    requires hs != [] && hs[|hs| - 1].Cleaned?
    ensures var front := hs[..|hs| - 1];
            && Starts(hs) == Starts(front) && EntryThrough(hs) == EntryAfter([]) && !BecomesReady([])
            && Stretches(hs) == Stretches(front) + [[]]
  {
  }

  lemma AfterADelivery(hs: seq<Happening>, closed: seq<seq<Delivery>>, last: seq<Delivery>)
    requires hs != [] && hs[|hs| - 1].Delivered?
    requires Stretches(hs[..|hs| - 1]) == closed + [last] && EntryThrough(hs[..|hs| - 1]) == EntryAfter(last)
    ensures var d := hs[|hs| - 1].delivery;
            && Starts(hs) ==
                 Starts(hs[..|hs| - 1]) + (if Deliver(EntryAfter(last), d.initial, d.run).1.Some? then 1 else 0)
            && EntryThrough(hs) == Deliver(EntryAfter(last), d.initial, d.run).0
            && Stretches(hs) == closed + [last + [d]]
  {
    hide EntryAfter, Deliver;
    assert (closed + [last])[..|closed|] == closed;
  }

  /** With cleanings in between, exactly one conversation is started for each stretch between them whose runs
      become ready. */
  lemma {:induction false} StartsAreReadyStretches(hs: seq<Happening>)
    ensures Starts(hs) == ReadyStretches(Stretches(hs))
    ensures EntryThrough(hs) == EntryAfter(Stretches(hs)[|Stretches(hs)| - 1])
  {
    if hs != [] {
      hide *;
      var before := Stretches(hs[..|hs| - 1]);
      var closed, last := before[..|before| - 1], before[|before| - 1];
      assert closed + [last] == before;
      StartsAreReadyStretches(hs[..|hs| - 1]);
      if hs[|hs| - 1].Cleaned? {
        AfterACleaning(hs);
        OneMoreStretch(before, []);
      } else {
        var d := hs[|hs| - 1].delivery;
        AfterADelivery(hs, closed, last);
        BecomesReadyOnce(last, d);
        OneMoreStretch(closed, last);
        OneMoreStretch(closed, last + [d]);
      }
    }
  }

  function Cleanings(hs: seq<Happening>): nat {
    if hs == [] then 0 else Cleanings(hs[..|hs| - 1]) + if hs[|hs| - 1].Cleaned? then 1 else 0
  }

  /** So there is at most one start before the first cleaning and after each. */
  lemma {:induction false} OneStartPerCleaning(hs: seq<Happening>)
    ensures Starts(hs) <= Cleanings(hs) + 1
    ensures (EntryThrough(hs).None? || !EntryThrough(hs).value.sent) ==> Starts(hs) <= Cleanings(hs)
  {
    if hs != [] {
      OneStartPerCleaning(hs[..|hs| - 1]);
    }
  }

  /** The bound is met: after a cleaning the same delivery starts a second conversation. */
  lemma CleaningAllowsASecondStart(g: Group, run: WorkflowRun)
    requires Ready(g[run.id := run])
    ensures var d := Delivered(Delivery(g, run)); Starts([d, d]) == 1 && Starts([d, Cleaned, d]) == 2
  {
    var d := Delivered(Delivery(g, run));
    assert [d][..0] == [] && [d, d][..1] == [d];
    assert [d, Cleaned, d][..2] == [d, Cleaned] && [d, Cleaned][..1] == [d];
    assert Starts([d]) == 1;
  }
}
