/** The periodic installation of GitLab webhooks: a batch of the pending rows stamped longest ago is processed
    and stamped anew, so that no pending row waits forever. */
module WebhookScheduler {
  import opened Events

  const CHUNK_SIZE: nat := 100

  /** An empty id stands for a missing one. */
  datatype Row = Row(group: string, project: string, installed: bool, stamp: Option<nat>)

  datatype Resource = Group(id: string) | Project(id: string)

  datatype RowId = RowId(number: int)

  type Table = map<RowId, Row>

  /** Fails when neither or both ids are given. */
  function DetermineResource(w: Row): Option<Resource> {
    if (w.group == "") == (w.project == "") then None
    else if w.group != "" then Some(Group(w.group))
    else Some(Project(w.project))
  }

  /** A resource is determined exactly by having one id: that of the group or that of the project. */
  lemma ResourceIsTheOnlyId(w: Row)
    ensures DetermineResource(w) == Some(Group(w.group)) <==> w.group != "" && w.project == ""
    ensures DetermineResource(w) == Some(Project(w.project)) <==> w.group == "" && w.project != ""
    ensures DetermineResource(w).None? <==> (w.group != "" <==> w.project != "")
  {
  }

  predicate SharesId(w: Row, other: Row) {
    (w.group != "" && other.group == w.group) || (w.project != "" && other.project == w.project)
  }

  predicate OneId(w: Row) {
    (w.group == "") != (w.project == "")
  }

  predicate Matches(w: Row, r: Resource) {
    match r
    case Group(id) => w.group == id
    case Project(id) => w.project == id
  }

  /** The ids are unique, by the constraints of the table. */
  predicate Unique(t: Table) {
    forall i, j :: i in t && j in t && i != j ==>
      (t[i].group != "" ==> t[i].group != t[j].group) && (t[i].project != "" ==> t[i].project != t[j].project)
  }

  /** With both ids or with none a row cannot be worked on. */
  predicate Malformed(w: Row) {
    DetermineResource(w).None?
  }

  predicate Pending(t: Table, i: RowId) {
    i in t && !t[i].installed
  }

  /** Ascending order of stamps, with missing stamps last. */
  predicate NoLater(a: Option<nat>, b: Option<nat>) {
    b.None? || (a.Some? && a.value <= b.value)
  }

  /** A result of the query for at most `limit` pending rows ordered by their stamps. */
  ghost predicate IsBatch(t: Table, batch: seq<RowId>, limit: nat) {
    && |batch| <= limit
    && (forall k :: 0 <= k < |batch| ==> Pending(t, batch[k]))
    && (forall k, l :: 0 <= k < l < |batch| ==> batch[k] != batch[l] && NoLater(t[batch[k]].stamp, t[batch[l]].stamp))
    && (forall i :: Pending(t, i) && i !in batch ==>
          |batch| == limit && forall k :: 0 <= k < |batch| ==> NoLater(t[batch[k]].stamp, t[i].stamp))
  }

  // ---- one run ----

  datatype Reply = Yes | No | RateLimited | Throws

  /** What GitLab answers about one row, and whether the final stamp can be written. */
  datatype Remote = Remote(resource: Reply, admin: Reply, hook: Reply, install: Reply, stampOk: bool)

  datatype End = Finished | BrokeOff | Threw

  /** The resource turned out to be gone, or no longer to be administered by the user. */
  predicate Revoked(remote: Remote) {
    remote.resource == No || (remote.resource == Yes && remote.admin == No)
  }

  predicate Verified(remote: Remote) {
    remote.resource == Yes && remote.admin == Yes
  }

  /** The resource ends up with a webhook, found there or created. */
  predicate Installed(remote: Remote) {
    Verified(remote) && (remote.hook == Yes || (remote.hook == No && remote.install == Yes))
  }

  /** One of the calls that are reached raises an unexpected exception. */
  predicate Unexpected(remote: Remote) {
    || remote.resource == Throws
    || (remote.resource == Yes && remote.admin == Throws)
    || (Verified(remote) && (remote.hook == Throws || (remote.hook == No && remote.install == Throws)))
  }

  /** The row's turn ends the run. */
  predicate Stops(w: Row, remote: Remote) {
    Malformed(w) || Unexpected(remote)
  }

  /** The pending rows of the resource of `w` get the outcome that the replies call for. */
  ghost predicate Outcomes(before: Table, after: Table, w: Row, remote: Remote) {
    !Malformed(w) && !w.installed ==>
      forall i :: Pending(before, i) && Matches(before[i], DetermineResource(w).value) ==> Outcome(after, i, remote)
  }

  /** What has become of a pending row after its turn: removed, no longer pending, or still pending. */
  predicate Outcome(t: Table, i: RowId, remote: Remote) {
    && (i in t <==> !Revoked(remote))
    && (i in t ==> (t[i].installed <==> Installed(remote)))
  }

  function Updated(w: Row, setExists: Option<bool>, clock: nat): Row {
    w.(stamp := Some(clock), installed := if setExists.Some? then setExists.value else w.installed)
  }

  class WebhookStore {
    var rows: Table
    var clock: nat

    method Oldest(candidates: set<RowId>) returns (best: RowId)
      requires candidates != {} && candidates <= rows.Keys
      ensures best in candidates && forall i :: i in candidates ==> NoLater(rows[best].stamp, rows[i].stamp)
    {
      best :| best in candidates;
      var todo := candidates;
      while todo != {}
        invariant todo <= candidates && best in candidates
        invariant forall i :: i in candidates && i !in todo ==> NoLater(rows[best].stamp, rows[i].stamp)
        decreases |todo|
      {
        var i :| i in todo;
        if !NoLater(rows[best].stamp, rows[i].stamp) {
          best := i;
        }
        todo := todo - {i};
      }
    }

    method FilterRows(limit: nat) returns (batch: seq<RowId>)
      ensures IsBatch(rows, batch, limit)
    {
      batch := [];
      var rest := set i | i in rows && !rows[i].installed;
      while rest != {} && |batch| < limit
        invariant |batch| <= limit
        invariant rest <= rows.Keys
        invariant forall i :: i in rest ==> Pending(rows, i) && i !in batch
        invariant forall i :: Pending(rows, i) ==> i in rest || i in batch
        invariant forall k :: 0 <= k < |batch| ==> Pending(rows, batch[k])
        invariant forall k, l :: 0 <= k < l < |batch| ==>
                    batch[k] != batch[l] && NoLater(rows[batch[k]].stamp, rows[batch[l]].stamp)
        invariant forall k, i :: 0 <= k < |batch| && i in rest ==> NoLater(rows[batch[k]].stamp, rows[i].stamp)
        decreases |rest|
      {
        var i := Oldest(rest);
        batch := batch + [i];
        rest := rest - {i};
      }
    }

    /** Every update stamps the rows it changes. */
    method UpdateWebhook(w: Row, setExists: Option<bool>) returns (ok: bool)
      modifies this`rows
      ensures ok <==> OneId(w)
      ensures ok <==> DetermineResource(w).Some?
      ensures ok ==> forall i :: i in rows && SharesId(w, rows[i]) ==>
                rows[i].stamp == Some(clock) && (setExists.Some? ==> rows[i].installed == setExists.value)
      ensures !ok ==> rows == old(rows)
      ensures ok ==> rows.Keys == old(rows).Keys && forall i :: i in rows ==>
                rows[i] == if Matches(old(rows)[i], DetermineResource(w).value)
                           then Updated(old(rows)[i], setExists, clock) else old(rows)[i]
    {
      var r := DetermineResource(w);
      if r.None? {
        return false;
      }
      rows := map i | i in rows :: if Matches(rows[i], r.value) then Updated(rows[i], setExists, clock) else rows[i];
      return true;
    }

    /** A reset makes the rows of a resource pending again and, as every update, stamps them. */
    method ResetForReinstallation(r: Resource) returns (found: bool)
      modifies this`rows
      ensures Touches(old(rows), rows, clock)
      ensures rows.Keys == old(rows).Keys
      ensures found <==> exists i :: i in rows && Matches(rows[i], r)
      ensures forall i :: i in rows && Matches(rows[i], r) ==> Pending(rows, i)
      ensures forall i :: i in rows && !Matches(rows[i], r) ==> rows[i] == old(rows)[i]
    {
      found := exists i :: i in rows && Matches(rows[i], r);
      rows := map i | i in rows ::
        if Matches(rows[i], r) then rows[i].(installed := false, stamp := Some(clock)) else rows[i];
    }

    method DeleteWebhook(w: Row)
      requires DetermineResource(w).Some?
      modifies this`rows
      ensures rows == map i | i in old(rows) && !Matches(old(rows)[i], DetermineResource(w).value) :: old(rows)[i]
    {
      rows := map i | i in rows && !Matches(rows[i], DetermineResource(w).value) :: rows[i];
    }

    /** The checks and the installation for one row, before the stamp that always follows. */
    method Install(w: Row, remote: Remote) returns (end: End)
      modifies this`rows
      ensures Malformed(w) ==> rows == old(rows)
      ensures !Malformed(w) ==> Confines(old(rows), rows, DetermineResource(w).value)
      ensures end == Threw <==> Stops(w, remote)
      ensures end == Finished <==>
                !Stops(w, remote) && Verified(remote) && remote.hook == No && remote.install in {Yes, No}
      ensures Outcomes(old(rows), rows, w, remote)
    {
      if DetermineResource(w).None? {
        return Threw;
      }
      if remote.resource == Throws { return Threw; }
      if remote.resource == RateLimited { return BrokeOff; }
      if remote.resource == No {
        DeleteWebhook(w);
        return BrokeOff;
      }
      if remote.admin == Throws { return Threw; }
      if remote.admin == RateLimited { return BrokeOff; }
      if remote.admin == No {
        DeleteWebhook(w);
        return BrokeOff;
      }
      if remote.hook == Throws { return Threw; }
      if remote.hook == RateLimited { return BrokeOff; }
      if (remote.hook == Yes) != w.installed {
        var _ := UpdateWebhook(w, Some(remote.hook == Yes));
      }
      if remote.hook == Yes { return BrokeOff; }
      if remote.install == Throws { return Threw; }
      if remote.install == RateLimited { return BrokeOff; }
      if remote.install == Yes {
        var _ := UpdateWebhook(w, Some(true));
      }
      return Finished;
    }

    /** One row's turn: the installation, then always the stamp. */
    method Serve(w: Row, remote: Remote) returns (end: End)
      modifies this`rows
      ensures Malformed(w) ==> rows == old(rows)
      ensures !Malformed(w) && remote.stampOk ==> Stamps(old(rows), rows, DetermineResource(w).value, clock)
      ensures end == Threw <==> Stops(w, remote)
      ensures Outcomes(old(rows), rows, w, remote)
    {
      end := Install(w, remote);
      if remote.stampOk {
        var _ := UpdateWebhook(w, None);
      }
    }

    /** One run of the job: up to a hundred rows, each stamped after its turn, until the end of the batch, a
        malformed row, or an unexpected exception. */
    method InstallWebhooks(remotes: RowId -> Remote) returns (batch: seq<RowId>, served: nat, aborted: bool)
      modifies this`rows
      ensures IsBatch(old(rows), batch, CHUNK_SIZE) && served <= |batch|
      ensures EndsRightly(old(rows), batch, served, aborted, remotes)
      ensures (forall k :: 0 <= k < |batch| ==> OneId(old(rows)[batch[k]]) && !Unexpected(remotes(batch[k]))) ==>
                !aborted && served == |batch|
      ensures served == 0 ==> rows == old(rows)
      ensures Unique(old(rows)) && StampsWork(batch, remotes) ==>
                && TurnOk(old(rows), rows, Run(batch, served, clock))
                && Served(old(rows), rows, batch, served, remotes, clock)
    {
      batch := FilterRows(CHUNK_SIZE);
      ghost var before := rows;
      ghost var good := Unique(rows) && StampsWork(batch, remotes);
      assert good ==> Served(rows, rows, batch, 0, remotes, clock);
      hide *;
      served, aborted := 0, false;
      var fetched := rows;
      while served < |batch| && !aborted
        invariant served <= |batch| && (served == 0 ==> rows == before)
        invariant good ==> Served(before, rows, batch, served, remotes, clock)
        invariant !aborted ==> GoesWell(before, batch, served, remotes)
        invariant aborted ==> EndsRightly(before, batch, served, aborted, remotes)
        decreases |batch| - served, !aborted
      {
        served, aborted := NextTurn(fetched, batch, served, remotes, good);
      }
      WholeRun(before, rows, batch, served, aborted, remotes, clock);
      SmoothRun(before, batch, served, aborted, remotes);
    }

    /** The turn of the row at position `k`; `served` counts it unless it is malformed. */
    method NextTurn(fetched: Table, batch: seq<RowId>, k: nat, remotes: RowId -> Remote, ghost good: bool)
      returns (served: nat, aborted: bool)
      requires k < |batch| && IsBatch(fetched, batch, CHUNK_SIZE) && GoesWell(fetched, batch, k, remotes)
      requires good ==> StampsWork(batch, remotes) && Served(fetched, rows, batch, k, remotes, clock)
      modifies this`rows
      ensures k <= served <= k + 1 && (served == k ==> aborted && rows == old(rows))
      ensures !aborted ==> GoesWell(fetched, batch, served, remotes)
      ensures aborted ==> EndsRightly(fetched, batch, served, aborted, remotes)
      ensures good ==> Served(fetched, rows, batch, served, remotes, clock)
    {
      InBatch(fetched, batch, k, remotes);
      OneMoreTurn(fetched, batch, k, remotes);
      hide *;
      var w := fetched[batch[k]];
      ghost var was := rows;
      var end := Serve(w, remotes(batch[k]));
      served, aborted := k, end == Threw;
      if !Malformed(w) {
        if good {
          ServedOneMore(fetched, was, rows, batch, k, remotes, clock);
        }
        served := k + 1;
      }
    }
  }

  ghost predicate StampsWork(batch: seq<RowId>, remotes: RowId -> Remote) {
    forall k :: 0 <= k < |batch| ==> remotes(batch[k]).stampOk
  }

  /** The first `n` rows of the batch do not stop the run. */
  ghost predicate GoesWell(before: Table, batch: seq<RowId>, n: nat, remotes: RowId -> Remote) {
    n <= |batch| && forall k :: 0 <= k < n ==> batch[k] in before && !Stops(before[batch[k]], remotes(batch[k]))
  }

  /** A run that is not aborted serves its whole batch. One that is aborted stops before the first malformed
      row, or after the first row that meets an unexpected exception. */
  ghost predicate EndsRightly(before: Table, batch: seq<RowId>, served: nat, aborted: bool, remotes: RowId -> Remote) {
    if !aborted then served == |batch| && GoesWell(before, batch, served, remotes)
    else
      || (GoesWell(before, batch, served, remotes)
          && served < |batch| && batch[served] in before && Malformed(before[batch[served]]))
      || (0 < served <= |batch| && GoesWell(before, batch, served - 1, remotes) && batch[served - 1] in before
          && !Malformed(before[batch[served - 1]]) && Unexpected(remotes(batch[served - 1])))
  }

  lemma InBatch(t: Table, batch: seq<RowId>, k: nat, remotes: RowId -> Remote)
    requires IsBatch(t, batch, CHUNK_SIZE) && k < |batch|
    ensures batch[k] in t && (StampsWork(batch, remotes) ==> remotes(batch[k]).stampOk)
  {
  }

  lemma OneMoreTurn(before: Table, batch: seq<RowId>, k: nat, remotes: RowId -> Remote)
    requires GoesWell(before, batch, k, remotes) && k < |batch| && batch[k] in before
    ensures var w, remote := before[batch[k]], remotes(batch[k]);
            && (!Stops(w, remote) ==> GoesWell(before, batch, k + 1, remotes))
            && (Malformed(w) ==> Stops(w, remote) && EndsRightly(before, batch, k, true, remotes))
            && (!Malformed(w) && Stops(w, remote) ==> EndsRightly(before, batch, k + 1, true, remotes))
  {
  }

  lemma ServedAreWellFormed(before: Table, batch: seq<RowId>, n: nat, aborted: bool, remotes: RowId -> Remote)
    requires IsBatch(before, batch, CHUNK_SIZE) && n <= |batch| && EndsRightly(before, batch, n, aborted, remotes)
    ensures forall k :: 0 <= k < n ==> batch[k] in before && !Malformed(before[batch[k]])
    ensures n == 0 ==> batch == [] || (batch[0] in before && Malformed(before[batch[0]]))
  {
    hide Unexpected, IsBatch, DetermineResource;
  }

  /** If every row of the batch has one id and meets no unexpected exception, the whole batch is served. */
  lemma SmoothRun(before: Table, batch: seq<RowId>, served: nat, aborted: bool, remotes: RowId -> Remote)
    requires served <= |batch| && EndsRightly(before, batch, served, aborted, remotes)
    requires forall k :: 0 <= k < |batch| ==> batch[k] in before
    ensures (forall k :: 0 <= k < |batch| ==> OneId(before[batch[k]]) && !Unexpected(remotes(batch[k]))) ==>
              !aborted && served == |batch|
  {
    hide Unexpected, GoesWell;
  }

  lemma WholeRun(before: Table, after: Table, batch: seq<RowId>, n: nat, aborted: bool, remotes: RowId -> Remote,
                 clock: nat)
    requires IsBatch(before, batch, CHUNK_SIZE) && n <= |batch|
    requires !aborted ==> n == |batch| && GoesWell(before, batch, n, remotes)
    requires aborted ==> EndsRightly(before, batch, n, aborted, remotes)
    ensures EndsRightly(before, batch, n, aborted, remotes)
    ensures Served(before, after, batch, n, remotes, clock) ==> TurnOk(before, after, Run(batch, n, clock))
  {
    ServedAreWellFormed(before, batch, n, aborted, remotes);
    hide GoesWell, Malformed, Unique, IsBatch;
  }

  /** The served rows are stamped or gone; every other row is untouched. */
  predicate Serves(before: Table, after: Table, served: seq<RowId>, clock: nat) {
    && after.Keys <= before.Keys
    && (forall i :: i in before && i !in served ==> i in after && after[i] == before[i])
    && (forall i :: i in after && i in served ==>
          after[i].stamp == Some(clock) && after[i].group == before[i].group && after[i].project == before[i].project)
  }

  /** The first `n` rows of the batch have had their turns. */
  predicate Served(before: Table, after: Table, batch: seq<RowId>, n: nat, remotes: RowId -> Remote, clock: nat)
    requires n <= |batch|
  {
    && Unique(after) && Serves(before, after, batch[..n], clock)
    && forall k :: 0 <= k < n ==> Outcome(after, batch[k], remotes(batch[k]))
  }

  /** Rows of other resources are untouched, and no row gets another id. */
  predicate Confines(before: Table, after: Table, r: Resource) {
    && after.Keys <= before.Keys
    && (forall i :: i in before && !Matches(before[i], r) ==> i in after && after[i] == before[i])
    && (forall i :: i in after ==> after[i].group == before[i].group && after[i].project == before[i].project)
  }

  /** In addition, the rows of the resource are stamped or gone. */
  predicate Stamps(before: Table, after: Table, r: Resource, clock: nat) {
    Confines(before, after, r) && forall i :: i in after && Matches(before[i], r) ==> after[i].stamp == Some(clock)
  }

  lemma ResourceNamesOneRow(t: Table, i: RowId)
    requires Unique(t) && i in t && !Malformed(t[i])
    ensures forall j :: j in t ==> (Matches(t[j], DetermineResource(t[i]).value) <==> j == i)
  {
  }

  /** With unique ids the turn of one row stamps or removes that row, and touches no other. */
  lemma OneRowTurn(was: Table, after: Table, i: RowId, clock: nat)
    requires Unique(was) && i in was && !Malformed(was[i]) && Stamps(was, after, DetermineResource(was[i]).value, clock)
    ensures Unique(after) && after.Keys <= was.Keys
    ensures forall j :: j in was && j != i ==> j in after && after[j] == was[j]
    ensures i in after ==>
              after[i].stamp == Some(clock) && after[i].group == was[i].group && after[i].project == was[i].project
  {
    ResourceNamesOneRow(was, i);
    hide Matches, DetermineResource;
  }

  lemma TurnComes(before: Table, was: Table, batch: seq<RowId>, k: nat, clock: nat)
    requires k < |batch| && IsBatch(before, batch, CHUNK_SIZE) && !Malformed(before[batch[k]])
    requires Serves(before, was, batch[..k], clock)
    ensures Pending(was, batch[k]) && was[batch[k]] == before[batch[k]]
    ensures Matches(was[batch[k]], DetermineResource(before[batch[k]]).value)
  {
    assert batch[k] !in batch[..k];
  }

  lemma ServesAdd(before: Table, was: Table, after: Table, served: seq<RowId>, i: RowId, clock: nat)
    requires Serves(before, was, served, clock) && i in before && i !in served && i in was && was[i] == before[i]
    requires Unique(was) && !Malformed(was[i]) && Stamps(was, after, DetermineResource(was[i]).value, clock)
    ensures Serves(before, after, served + [i], clock)
  {
    OneRowTurn(was, after, i, clock);
    hide Stamps, Unique;
    assert forall j :: j in served + [i] <==> j in served || j == i;
  }

  lemma OutcomeStands(was: Table, after: Table, i: RowId, remote: Remote)
    requires Outcome(was, i, remote) && after.Keys <= was.Keys && (i in was ==> i in after && after[i] == was[i])
    ensures Outcome(after, i, remote)
  {
  }

  lemma ServedOneMore(before: Table, was: Table, after: Table, batch: seq<RowId>, k: nat,
                      remotes: RowId -> Remote, clock: nat)
    requires k < |batch| && IsBatch(before, batch, CHUNK_SIZE) && !Malformed(before[batch[k]])
    requires Served(before, was, batch, k, remotes, clock)
    requires Stamps(was, after, DetermineResource(before[batch[k]]).value, clock)
    requires Outcomes(was, after, before[batch[k]], remotes(batch[k]))
    ensures Served(before, after, batch, k + 1, remotes, clock)
  {
    TurnComes(before, was, batch, k, clock);
    OneRowTurn(was, after, batch[k], clock);
    ServesAdd(before, was, after, batch[..k], batch[k], clock);
    assert batch[..k + 1] == batch[..k] + [batch[k]];
    assert forall l :: 0 <= l < k ==> batch[l] != batch[k];
    assert Outcome(after, batch[k], remotes(batch[k]));
    hide Stamps, Unique, Serves, IsBatch, Malformed, Matches, Outcome, Outcomes;
    forall l | 0 <= l <= k ensures Outcome(after, batch[l], remotes(batch[l])) {
      if l < k {
        OutcomeStands(was, after, batch[l], remotes(batch[l]));
      }
    }
  }

  // ---- bounded waiting ----

  /** What others may do to the table at a time: a row that is pending afterwards is as it was, or was
      stamped at that time or later. */
  predicate Touches(before: Table, after: Table, clock: nat) {
    forall i :: i in after && !after[i].installed ==>
      (i in before && after[i] == before[i]) || (after[i].stamp.Some? && after[i].stamp.value >= clock)
  }

  datatype Turn = Run(batch: seq<RowId>, served: nat, clock: nat) | Elsewhere(clock: nat)

  predicate Complete(t: Turn) {
    t.Run? && t.served == |t.batch|
  }

  ghost predicate TurnOk(before: Table, after: Table, t: Turn) {
    match t
    case Run(batch, served, clock) =>
      && IsBatch(before, batch, CHUNK_SIZE) && served <= |batch|
      && (forall k :: 0 <= k < served ==> !Malformed(before[batch[k]]))
      && (served == 0 ==> batch == [] || Malformed(before[batch[0]]))
      && Serves(before, after, batch[..served], clock)
    case Elsewhere(clock) => Touches(before, after, clock)
  }

  /** The other pending rows stamped no later than row `r`. */
  function Ahead(t: Table, r: RowId): set<RowId>
    requires r in t && t[r].stamp.Some?
  {
    set i | i in t && i != r && !t[i].installed && t[i].stamp.Some? && t[i].stamp.value <= t[r].stamp.value
  }

  /** The row is pending and unchanged, and the turn, after the row's stamp, did not serve it. */
  predicate Waits(before: Table, after: Table, t: Turn, r: RowId) {
    && Pending(before, r) && before[r].stamp.Some? && r in after && after[r] == before[r]
    && before[r].stamp.value < t.clock
    && (t.Run? ==> t.served <= |t.batch| && r !in t.batch[..t.served])
  }

  /** No malformed pending row is stamped no later than row `r`. */
  ghost predicate Clear(t: Table, r: RowId)
    requires r in t
  {
    forall m :: Pending(t, m) && Malformed(t[m]) ==> !NoLater(t[m].stamp, t[r].stamp)
  }

  function ToSet(s: seq<RowId>): set<RowId> {
    set k | 0 <= k < |s| :: s[k]
  }

  lemma {:induction false} DistinctCount(s: seq<RowId>)
    requires forall k, l :: 0 <= k < l < |s| ==> s[k] != s[l]
    ensures |ToSet(s)| == |s|
  {
    if s != [] {
      var front := s[..|s| - 1];
      DistinctCount(front);
      assert ToSet(s) == ToSet(front) + {s[|s| - 1]};
    }
  }

  lemma SubsetCount(a: set<RowId>, b: set<RowId>)
    requires a <= b
    ensures |b - a| == |b| - |a|
  {
    assert a + (b - a) == b;
  }

  lemma {:induction false} SmallerCount(a: set<RowId>, b: set<RowId>)
    requires a <= b
    ensures |a| <= |b|
  {
    SubsetCount(a, b);
  }

  lemma HeadIsEarly(t: Table, batch: seq<RowId>, r: RowId)
    requires IsBatch(t, batch, CHUNK_SIZE) && Pending(t, r)
    ensures batch != [] && (batch[0] == r || NoLater(t[batch[0]].stamp, t[r].stamp))
  {
    if r in batch {
      var l :| 0 <= l < |batch| && batch[l] == r;
    }
  }

  /** Whatever of its batch a run serves without serving row `r` comes before it. */
  lemma ComesBefore(t: Table, batch: seq<RowId>, served: nat, r: RowId, k: nat)
    requires IsBatch(t, batch, CHUNK_SIZE) && Pending(t, r) && k < served <= |batch| && r !in batch[..served]
    ensures batch[k] != r && NoLater(t[batch[k]].stamp, t[r].stamp)
  {
    assert forall m :: 0 <= m < served ==> batch[..served][m] == batch[m];
    if r in batch {
      var l :| 0 <= l < |batch| && batch[l] == r;
    }
  }

  /** Everything served before row `r` stood ahead of it. */
  lemma ServedWereAhead(before: Table, after: Table, t: Turn, r: RowId)
    requires t.Run? && TurnOk(before, after, t) && Waits(before, after, t, r) && Clear(before, r)
    ensures ToSet(t.batch[..t.served]) <= Ahead(before, r)
    ensures Complete(t) ==> t.served == CHUNK_SIZE
    ensures t.served >= 1
  {
    HeadIsEarly(before, t.batch, r);
    if Complete(t) {
      assert t.batch[..t.served] == t.batch;
    }
    forall k | 0 <= k < t.served ensures t.batch[k] in Ahead(before, r) {
      ComesBefore(before, t.batch, t.served, r, k);
    }
    assert forall k :: 0 <= k < t.served ==> t.batch[..t.served][k] == t.batch[k];
  }

  lemma ServedAreDistinct(t: Table, turn: Turn)
    requires turn.Run? && IsBatch(t, turn.batch, CHUNK_SIZE) && turn.served <= |turn.batch|
    ensures |ToSet(turn.batch[..turn.served])| == turn.served
  {
    DistinctCount(turn.batch[..turn.served]);
  }

  lemma ServingShrinksAhead(before: Table, after: Table, served: seq<RowId>, clock: nat, r: RowId)
    requires Serves(before, after, served, clock) && r in before && r in after && after[r] == before[r]
    requires before[r].stamp.Some? && before[r].stamp.value < clock
    ensures Ahead(after, r) <= Ahead(before, r) - ToSet(served)
  {
    assert forall i :: i in served <==> i in ToSet(served);
  }

  lemma TurnShrinksAhead(before: Table, after: Table, t: Turn, r: RowId)
    requires TurnOk(before, after, t) && Waits(before, after, t, r) && Clear(before, r)
    ensures Clear(after, r)
    ensures |Ahead(after, r)| + (if Complete(t) then CHUNK_SIZE else if t.Run? then 1 else 0) <= |Ahead(before, r)|
  {
    StaysClear(before, after, t, r);
    hide Ahead, IsBatch, Clear;
    if t.Run? {
      var served := t.batch[..t.served];
      ServedWereAhead(before, after, t, r);
      assert |ToSet(served)| == t.served by {
        ServedAreDistinct(before, t);
      }
      ServingShrinksAhead(before, after, served, t.clock, r);
      SmallerCount(Ahead(after, r), Ahead(before, r) - ToSet(served));
      SubsetCount(ToSet(served), Ahead(before, r));
    } else {
      TouchingKeepsAhead(before, after, t, r);
      SmallerCount(Ahead(after, r), Ahead(before, r));
    }
  }

  lemma StaysClear(before: Table, after: Table, t: Turn, r: RowId)
    requires TurnOk(before, after, t) && Waits(before, after, t, r) && Clear(before, r)
    ensures Clear(after, r)
  {
    hide DetermineResource;
  }

  lemma TouchingKeepsAhead(before: Table, after: Table, t: Turn, r: RowId)
    requires t.Elsewhere? && TurnOk(before, after, t) && Waits(before, after, t, r)
    ensures Ahead(after, r) <= Ahead(before, r)
  {
  }

  ghost predicate IsHistory(ts: seq<Table>, turns: seq<Turn>) {
    |ts| == |turns| + 1 && forall k :: 0 <= k < |turns| ==> TurnOk(ts[k], ts[k + 1], turns[k])
  }

  function CompleteRuns(turns: seq<Turn>): nat {
    if turns == [] then 0
    else CompleteRuns(turns[..|turns| - 1]) + if Complete(turns[|turns| - 1]) then 1 else 0
  }

  function AbortedRuns(turns: seq<Turn>): nat {
    if turns == [] then 0
    else
      var last := turns[|turns| - 1];
      AbortedRuns(turns[..|turns| - 1]) + if last.Run? && !Complete(last) then 1 else 0
  }

  /** While a pending row waits that has no malformed row ahead of it, each complete run uses up a hundred of the
      rows ahead of it and each aborted run at least one; so with k rows ahead it sees at most k / 100 complete runs,
      and at most k runs in all, that do not serve it. */
  lemma {:induction false} BoundedWaiting(ts: seq<Table>, turns: seq<Turn>, r: RowId)
    requires IsHistory(ts, turns)
    requires Pending(ts[0], r) && ts[0][r].stamp.Some? && Clear(ts[0], r)
    requires forall k :: 0 <= k < |turns| ==> Waits(ts[k], ts[k + 1], turns[k], r)
    ensures r in ts[|turns|] && ts[|turns|][r] == ts[0][r] && Clear(ts[|turns|], r)
    ensures CHUNK_SIZE * CompleteRuns(turns) + AbortedRuns(turns) + |Ahead(ts[|turns|], r)| <= |Ahead(ts[0], r)|
    ensures CompleteRuns(turns) <= |Ahead(ts[0], r)| / CHUNK_SIZE
    ensures CompleteRuns(turns) + AbortedRuns(turns) <= |Ahead(ts[0], r)|
  {
    if turns != [] {
      var n := |turns| - 1;
      BoundedWaiting(ts[..n + 1], turns[..n], r);
      TurnShrinksAhead(ts[n], ts[n + 1], turns[n], r);
    }
  }

  // ---- when a row is never served ----

  predicate Untouched(before: Table, after: Table, i: RowId) {
    i in before && i in after && after[i] == before[i]
  }

  predicate ServesRow(t: Turn, r: RowId) {
    t.Run? && t.served <= |t.batch| && r in t.batch[..t.served]
  }

  /** Others leave a row and the malformed ones alone. */
  ghost predicate Spares(ts: seq<Table>, turns: seq<Turn>, r: RowId)
    requires |ts| == |turns| + 1
  {
    forall k :: 0 <= k < |turns| && turns[k].Elsewhere? ==>
      Untouched(ts[k], ts[k + 1], r) && forall m :: m in ts[k] && Malformed(ts[k][m]) ==> Untouched(ts[k], ts[k + 1], m)
  }

  /** No run gets past a malformed pending row to a row stamped later. */
  lemma MalformedBlocks(before: Table, after: Table, t: Turn, m: RowId, r: RowId)
    requires t.Run? && TurnOk(before, after, t)
    requires Pending(before, m) && Malformed(before[m]) && Pending(before, r)
    requires !NoLater(before[r].stamp, before[m].stamp)
    ensures !ServesRow(t, r) && Untouched(before, after, m) && Untouched(before, after, r)
  {
    hide DetermineResource, NoLater;
    var served := t.batch[..t.served];
    if m in t.batch {
      var l :| 0 <= l < |t.batch| && t.batch[l] == m;
      assert l >= t.served;
    }
    assert m !in served;
    forall k | 0 <= k < t.served ensures t.batch[k] != r {
      assert NoLater(before[t.batch[k]].stamp, before[m].stamp);
    }
  }

  /** A row stamped later than a malformed pending one is never served, over any number of runs. */
  lemma {:induction false} StarvesBehindMalformed(ts: seq<Table>, turns: seq<Turn>, m: RowId, r: RowId, n: nat)
    requires IsHistory(ts, turns) && Spares(ts, turns, r) && n <= |turns|
    requires Pending(ts[0], m) && Malformed(ts[0][m]) && Pending(ts[0], r)
    requires !NoLater(ts[0][r].stamp, ts[0][m].stamp)
    ensures Untouched(ts[0], ts[n], m) && Untouched(ts[0], ts[n], r)
    ensures n < |turns| ==> !ServesRow(turns[n], r)
  {
    hide TurnOk, NoLater, DetermineResource;
    if n > 0 {
      StarvesBehindMalformed(ts, turns, m, r, n - 1);
      if turns[n - 1].Run? {
        MalformedBlocks(ts[n - 1], ts[n], turns[n - 1], m, r);
      } else {
        assert m in ts[n - 1] && Malformed(ts[n - 1][m]);
        assert Untouched(ts[n - 1], ts[n - 1 + 1], m);
      }
    }
    if n < |turns| && turns[n].Run? {
      MalformedBlocks(ts[n], ts[n + 1], turns[n], m, r);
    }
  }

  /** A malformed row stamped strictly before all others brings the whole job to a halt: no run ever changes
      anything. */
  lemma {:induction false} MalformedOldestStopsTheJob(ts: seq<Table>, turns: seq<Turn>, m: RowId)
    requires IsHistory(ts, turns) && forall k :: 0 <= k < |turns| ==> turns[k].Run?
    requires Pending(ts[0], m) && Malformed(ts[0][m])
    requires forall i :: Pending(ts[0], i) && i != m ==> !NoLater(ts[0][i].stamp, ts[0][m].stamp)
    ensures ts[|turns|] == ts[0]
  {
    if turns != [] {
      var n := |turns| - 1;
      MalformedOldestStopsTheJob(ts[..n + 1], turns[..n], m);
      assert TurnOk(ts[n], ts[n + 1], turns[n]);
      HeadIsEarly(ts[n], turns[n].batch, m);
      assert turns[n].served == 0;
    }
  }

  lemma {:induction false} UnservedWaits(ts: seq<Table>, turns: seq<Turn>, r: RowId, n: nat)
    requires IsHistory(ts, turns) && Spares(ts, turns, r) && n <= |turns| && Pending(ts[0], r) && ts[0][r].stamp.Some?
    requires forall k :: 0 <= k < |turns| ==> ts[0][r].stamp.value < turns[k].clock && !ServesRow(turns[k], r)
    ensures Untouched(ts[0], ts[n], r)
    ensures n < |turns| ==> Waits(ts[n], ts[n + 1], turns[n], r)
  {
    if n > 0 {
      UnservedWaits(ts, turns, r, n - 1);
    }
    if n < |turns| {
      assert TurnOk(ts[n], ts[n + 1], turns[n]);
    }
  }

  /** The exact condition. Take a history of more runs than the row has others ahead of it, in which others
      leave the row and the malformed ones alone. Then the row is served in it if and only if no malformed
      pending row is stamped earlier; only the order of equal stamps is left to the database. */
  lemma ServedIffNoMalformedEarlier(ts: seq<Table>, turns: seq<Turn>, r: RowId)
    requires IsHistory(ts, turns) && Spares(ts, turns, r) && Pending(ts[0], r) && ts[0][r].stamp.Some?
    requires CompleteRuns(turns) + AbortedRuns(turns) > |Ahead(ts[0], r)|
    requires forall k :: 0 <= k < |turns| ==> ts[0][r].stamp.value < turns[k].clock
    requires forall m :: Pending(ts[0], m) && Malformed(ts[0][m]) ==> ts[0][m].stamp != ts[0][r].stamp
    ensures (exists k :: 0 <= k < |turns| && ServesRow(turns[k], r)) <==>
            forall m :: Pending(ts[0], m) && Malformed(ts[0][m]) ==> NoLater(ts[0][r].stamp, ts[0][m].stamp)
  {
    hide TurnOk, DetermineResource, ServesRow, CompleteRuns, AbortedRuns, Ahead;
    if m :| Pending(ts[0], m) && Malformed(ts[0][m]) && !NoLater(ts[0][r].stamp, ts[0][m].stamp) {
      forall k | 0 <= k < |turns| ensures !ServesRow(turns[k], r) {
        StarvesBehindMalformed(ts, turns, m, r, k);
      }
    } else if forall k :: 0 <= k < |turns| ==> !ServesRow(turns[k], r) {
      forall k | 0 <= k < |turns| ensures Waits(ts[k], ts[k + 1], turns[k], r) {
        UnservedWaits(ts, turns, r, k);
      }
      BoundedWaiting(ts, turns, r);
    }
  }

  lemma UnstampedComesLast(t: Table, batch: seq<RowId>, l: nat, i: RowId)
    requires IsBatch(t, batch, CHUNK_SIZE) && l < |batch| && t[batch[l]].stamp.None?
    requires Pending(t, i) && t[i].stamp.Some?
    ensures i in batch && i != batch[l]
  {
  }

  /** A row without a stamp is not served while a hundred stamped rows are pending, however long it waits. */
  lemma UnstampedRowWaitsForAll(t: Table, r: RowId, batch: seq<RowId>, others: set<RowId>)
    requires IsBatch(t, batch, CHUNK_SIZE) && Pending(t, r) && t[r].stamp.None?
    requires |others| == CHUNK_SIZE && forall i :: i in others ==> Pending(t, i) && t[i].stamp.Some?
    ensures r !in batch
  {
    if r in batch {
      var l :| 0 <= l < |batch| && batch[l] == r;
      forall i | i in others ensures i in ToSet(batch) - {r} {
        UnstampedComesLast(t, batch, l, i);
      }
      SmallerCount(others, ToSet(batch) - {r});
      DistinctCount(batch);
      assert r in ToSet(batch);
      SubsetCount({r}, ToSet(batch));
    }
  }
}
