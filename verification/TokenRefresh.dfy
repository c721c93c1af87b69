/** Double-checked refresh of one row of auth tokens: any number of callers interleave on the row, its lock and
    an identity provider that accepts each refresh token once. */
module TokenRefresh {
  import opened Events

  datatype Row = Row(access: string, refresh: string, accessExpires: int, refreshExpires: int)

  const ACCESS_TOKEN_EXPIRY_BUFFER := 900
  const VALIDITY_MARGIN := 30

  predicate AccessExpired(r: Row, now: int) {
    r.accessExpires != 0 && r.accessExpires < now + ACCESS_TOKEN_EXPIRY_BUFFER
  }

  predicate AccessValid(r: Row, now: int) {
    r.accessExpires > now + VALIDITY_MARGIN
  }

  // ---- the two notions of an unexpired token ----

  /** A token with an expiry that is loaded as unexpired at t is for certain still valid at t' exactly when
      t' lies before t + 870. */
  lemma UnexpiredStaysValid(t: nat, t': int)
    ensures t' < t + (ACCESS_TOKEN_EXPIRY_BUFFER - VALIDITY_MARGIN) <==>
            forall r: Row :: r.accessExpires != 0 && !AccessExpired(r, t) ==> AccessValid(r, t')
  {
    var r := Row("", "", t + ACCESS_TOKEN_EXPIRY_BUFFER, 0);
    assert r.accessExpires != 0 && !AccessExpired(r, t);
  }

  /** A token without an expiry is never refreshed, and never reported valid either. */
  lemma NoExpiryIsNeverExpiredAndNeverValid(r: Row, t: nat)
    requires r.accessExpires == 0
    ensures !AccessExpired(r, t) && !AccessValid(r, t)
  {
  }

  // ---- the callers ----

  type Pid = int

  /** Where a call of load_tokens stands. `since` is the version of the row at which it began; a call that
      returned remembers the version it returned. */
  datatype Caller =
    | Called(since: nat, checks: bool)
    | Waiting(since: nat)
    | Refreshing(since: nat, row: Row)
    | Accepted(since: nat, row: Row, tokens: Row)
    | Returned(since: nat, version: nat, row: Row)
    | ReturnedNothing(since: nat, version: nat)
    | Raised

  /** A refresh token shown to the provider, and whether it was accepted. */
  datatype Presentation = Presentation(token: string, accepted: bool)

  /** `versions` are the committed values of the row, the current one last; `issued` are all refresh tokens
      that were ever stored or handed out. */
  datatype State = State(now: int, versions: seq<Option<Row>>, lock: Option<Pid>, callers: map<Pid, Caller>,
                         shown: seq<Presentation>, issued: set<string>)

  function Current(s: State): Option<Row> {
    if s.versions == [] then None else s.versions[|s.versions| - 1]
  }

  datatype Step =
    | Call(p: Pid, checks: bool)
    | ReadUnlocked(p: Pid)
    | Lock(p: Pid)
    | LockTimeout(p: Pid)
    | Decline(p: Pid)               // the check finds that no refresh is needed
    | Refuse(p: Pid)                // the provider or the check raises
    | Accept(p: Pid, tokens: Row)   // the provider takes the refresh token and answers with new ones
    | Commit(p: Pid)
    | LoseCommit(p: Pid)            // the transaction fails after the provider accepted
    | Store(row: Row)               // store_tokens
    | Tick(d: nat)

  predicate Enabled(s: State, t: Step) {
    match t
    case Call(p, _) => p !in s.callers
    case ReadUnlocked(p) => p in s.callers && s.callers[p].Called?
    case Lock(p) => p in s.callers && s.callers[p].Waiting? && s.lock.None?
    case LockTimeout(p) => p in s.callers && s.callers[p].Waiting?
    case Decline(p) => p in s.callers && s.callers[p].Refreshing?
    case Refuse(p) => p in s.callers && s.callers[p].Refreshing?
    case Accept(p, _) => p in s.callers && s.callers[p].Refreshing?
    case Commit(p) => p in s.callers && s.callers[p].Accepted?
    case LoseCommit(p) => p in s.callers && s.callers[p].Accepted?
    case Store(_) => s.lock.None?   // an update waits for the row lock
    case Tick(_) => true
  }

  function Now(s: State, p: Pid, c: Caller): State {
    s.(callers := s.callers[p := c])
  }

  function Take(s: State, t: Step): State
    requires Enabled(s, t) && s.versions != []
  {
    var last := |s.versions| - 1;
    match t
    case Call(p, checks) => Now(s, p, Called(last, checks))
    case ReadUnlocked(p) =>
      var c := s.callers[p];
      if Current(s).None? then Now(s, p, ReturnedNothing(c.since, last))
      else if !AccessExpired(Current(s).value, s.now) || !c.checks
      then Now(s, p, Returned(c.since, last, Current(s).value))
      else Now(s, p, Waiting(c.since))
    case Lock(p) =>
      var c := s.callers[p];
      if Current(s).None? then Now(s, p, ReturnedNothing(c.since, last))
      else if !AccessExpired(Current(s).value, s.now) then Now(s, p, Returned(c.since, last, Current(s).value))
      else Now(s, p, Refreshing(c.since, Current(s).value)).(lock := Some(p))
    case LockTimeout(p) => Now(s, p, Raised)
    case Decline(p) => Now(s, p, Returned(s.callers[p].since, last, s.callers[p].row)).(lock := None)
    case Refuse(p) =>
      Now(s, p, Raised).(lock := None, shown := s.shown + [Presentation(s.callers[p].row.refresh, false)])
    case Accept(p, tokens) =>
      Now(s, p, Accepted(s.callers[p].since, s.callers[p].row, tokens))
      .(shown := s.shown + [Presentation(s.callers[p].row.refresh, true)], issued := s.issued + {tokens.refresh})
    case Commit(p) =>
      Now(s, p, Returned(s.callers[p].since, last + 1, s.callers[p].tokens))
      .(versions := s.versions + [Some(s.callers[p].tokens)], lock := None)
    case LoseCommit(p) => Now(s, p, Raised).(lock := None)
    case Store(row) => s.(versions := s.versions + [Some(row)], issued := s.issued + {row.refresh})
    case Tick(d) => s.(now := s.now + d)
  }

  function Initial(now: int, row: Option<Row>): State {
    State(now, [row], None, map[], [], if row.Some? then {row.value.refresh} else {})
  }

  ghost predicate IsRun(ss: seq<State>, ts: seq<Step>) {
    && |ss| == |ts| + 1
    && (exists now, row :: ss[0] == Initial(now, row))
    && forall i :: 0 <= i < |ts| ==> ss[i].versions != [] && Enabled(ss[i], ts[i]) && ss[i + 1] == Take(ss[i], ts[i])
  }

  /** The assumptions: the provider answers with refresh tokens it never issued before, store_tokens writes
      only such tokens, and a refresh the provider accepted is committed. */
  predicate Assumed(s: State, t: Step) {
    && !t.LoseCommit?
    && (t.Accept? ==> t.tokens.refresh !in s.issued)
    && (t.Store? ==> t.row.refresh !in s.issued)
  }

  // ---- refresh-token safety ----

  predicate Consumed(shown: seq<Presentation>, token: string) {
    exists i :: 0 <= i < |shown| && shown[i] == Presentation(token, true)
  }

  /** Nothing that was accepted is ever shown again. */
  predicate NeverReused(shown: seq<Presentation>) {
    forall i, j :: 0 <= i < j < |shown| && shown[i].accepted ==> shown[j].token != shown[i].token
  }

  predicate Locking(c: Caller) {
    c.Refreshing? || c.Accepted?
  }

  predicate Safe(s: State) {
    && s.versions != []
    && (forall p :: p in s.callers && Locking(s.callers[p]) ==>
          s.lock == Some(p) && Current(s) == Some(s.callers[p].row))
    && (Current(s).Some? ==> Current(s).value.refresh in s.issued)
    && (forall i :: 0 <= i < |s.shown| ==> s.shown[i].token in s.issued)
    && (forall p :: p in s.callers && s.callers[p].Accepted? ==>
          s.callers[p].tokens.refresh in s.issued && !Consumed(s.shown, s.callers[p].tokens.refresh))
    && (Current(s).Some? && (forall p :: p in s.callers ==> !s.callers[p].Accepted?) ==>
          !Consumed(s.shown, Current(s).value.refresh))
    && NeverReused(s.shown)
  }

  /** Whoever holds the lock and has not been answered yet holds a token that is still unused. */
  lemma HeldTokenIsUnused(s: State, p: Pid)
    requires Safe(s) && p in s.callers && s.callers[p].Refreshing?
    ensures !Consumed(s.shown, s.callers[p].row.refresh)
  {
    assert forall q :: q in s.callers && s.callers[q].Accepted? ==> Locking(s.callers[q]) && q == p;
  }

  /** The caller, if there is one, neither refreshes nor waits to commit. */
  predicate Free(s: State, p: Pid) {
    p in s.callers ==> !Locking(s.callers[p])
  }

  lemma FreeMoveKeepsSafe(s: State, p: Pid, c: Caller)
    requires Safe(s) && Free(s, p) && !Locking(c)
    ensures Safe(Now(s, p, c))
  {
    hide NeverReused, Consumed;
    assert forall q :: q in s.callers && s.callers[q].Accepted? ==> q != p;
  }

  lemma LockKeepsSafe(s: State, p: Pid)
    requires Safe(s) && Enabled(s, Lock(p))
    ensures Safe(Take(s, Lock(p)))
  {
    hide NeverReused, Consumed, AccessExpired;
    assert forall q :: q in s.callers && s.callers[q].Accepted? ==> q != p;
  }

  lemma ReleaseKeepsSafe(s: State, p: Pid, c: Caller)
    requires Safe(s) && p in s.callers && s.callers[p].Refreshing? && !Locking(c)
    ensures Safe(Now(s, p, c).(lock := None))
  {
    hide NeverReused, Consumed;
    assert forall q :: q in s.callers && Locking(s.callers[q]) ==> q == p;
  }

  lemma RefuseKeepsSafe(s: State, p: Pid)
    requires Safe(s) && Enabled(s, Refuse(p))
    ensures Safe(Take(s, Refuse(p)))
  {
    HeldTokenIsUnused(s, p);
    assert forall q :: q in s.callers && Locking(s.callers[q]) ==> q == p;
  }

  lemma AcceptKeepsSafe(s: State, p: Pid, tokens: Row)
    requires Safe(s) && Enabled(s, Accept(p, tokens)) && Assumed(s, Accept(p, tokens))
    ensures Safe(Take(s, Accept(p, tokens)))
  {
    HeldTokenIsUnused(s, p);
    assert forall q :: q in s.callers && Locking(s.callers[q]) ==> q == p;
  }

  lemma CommitKeepsSafe(s: State, p: Pid)
    requires Safe(s) && Enabled(s, Commit(p))
    ensures Safe(Take(s, Commit(p)))
  {
    hide NeverReused, Consumed;
    assert forall q :: q in s.callers && Locking(s.callers[q]) ==> q == p;
  }

  lemma StoreKeepsSafe(s: State, row: Row)
    requires Safe(s) && Enabled(s, Store(row)) && Assumed(s, Store(row))
    ensures Safe(Take(s, Store(row)))
  {
    hide NeverReused;
    assert forall q :: q in s.callers ==> !Locking(s.callers[q]);
  }

  lemma StepKeepsSafe(s: State, t: Step)
    requires Safe(s) && Enabled(s, t) && Assumed(s, t)
    ensures Safe(Take(s, t))
  {
    match t
    case Tick(d) =>
    case Store(row) => StoreKeepsSafe(s, row);
    case Lock(p) => LockKeepsSafe(s, p);
    case Refuse(p) => RefuseKeepsSafe(s, p);
    case Accept(p, tokens) => AcceptKeepsSafe(s, p, tokens);
    case Commit(p) => CommitKeepsSafe(s, p);
    case Decline(p) => ReleaseKeepsSafe(s, p, Take(s, t).callers[p]);
    case Call(p, _) => FreeMoveKeepsSafe(s, p, Take(s, t).callers[p]);
    case ReadUnlocked(p) => FreeMoveKeepsSafe(s, p, Take(s, t).callers[p]);
    case LockTimeout(p) => FreeMoveKeepsSafe(s, p, Raised);
    case LoseCommit(p) =>
  }

  lemma {:induction false} RefreshTokensAreNeverReused(ss: seq<State>, ts: seq<Step>, i: nat)
    requires IsRun(ss, ts) && i < |ss|
    requires forall j :: 0 <= j < |ts| ==> Assumed(ss[j], ts[j])
    ensures Safe(ss[i]) && NeverReused(ss[i].shown)
  {
    if i > 0 {
      RefreshTokensAreNeverReused(ss, ts, i - 1);
      StepKeepsSafe(ss[i - 1], ts[i - 1]);
    }
  }

  // ---- what a call returns ----

  /** The lock holder's copy is the current row and is expired; what a call returned is one whole version of
      the row, current at some moment since the call began, and it returned nothing only if there was no row at some
      such moment. None of this needs the assumptions. */
  predicate Coherent(s: State) {
    && s.versions != []
    && (forall p :: p in s.callers && Locking(s.callers[p]) ==>
          && s.lock == Some(p) && Current(s) == Some(s.callers[p].row)
          && AccessExpired(s.callers[p].row, s.now))
    && (forall p :: p in s.callers && !s.callers[p].Raised? ==> s.callers[p].since < |s.versions|)
    && (forall p :: p in s.callers && s.callers[p].ReturnedNothing? ==>
          var c := s.callers[p];
          c.since <= c.version < |s.versions| && s.versions[c.version] == None)
    && (forall p :: p in s.callers && s.callers[p].Returned? ==>
          var c := s.callers[p];
          c.since <= c.version < |s.versions| && s.versions[c.version] == Some(c.row))
  }

  /** What one caller may be without breaking coherence. */
  predicate CallerOk(s: State, p: Pid, c: Caller)
    requires s.versions != []
  {
    && (Locking(c) ==> s.lock == Some(p) && Current(s) == Some(c.row) && AccessExpired(c.row, s.now))
    && (!c.Raised? ==> c.since < |s.versions|)
    && (c.ReturnedNothing? ==> c.since <= c.version < |s.versions| && s.versions[c.version] == None)
    && (c.Returned? ==> c.since <= c.version < |s.versions| && s.versions[c.version] == Some(c.row))
  }

  lemma CoherentMeans(s: State)
    ensures Coherent(s) <==> s.versions != [] && forall p :: p in s.callers ==> CallerOk(s, p, s.callers[p])
  {
  }

  /** All that can go wrong in a step is what it writes about the caller that takes it, and what the lock
      holder relies on. */
  lemma OneCallerMoves(s: State, s': State, p: Pid)
    requires Coherent(s) && s.versions <= s'.versions && s.now <= s'.now && p in s'.callers
    requires forall q :: q in s'.callers && q != p ==> q in s.callers && s'.callers[q] == s.callers[q]
    requires CallerOk(s', p, s'.callers[p])
    requires forall q :: q in s.callers && q != p && Locking(s.callers[q]) ==>
               s'.lock == s.lock && Current(s') == Current(s)
    ensures Coherent(s')
  {
    CoherentMeans(s);
    CoherentMeans(s');
    hide Coherent;
    forall q | q in s'.callers && q != p ensures CallerOk(s', q, s'.callers[q]) {
      assert CallerOk(s, q, s.callers[q]);
    }
  }

  lemma StoreOrTickKeepsCoherent(s: State, t: Step)
    requires Coherent(s) && Enabled(s, t) && (t.Store? || t.Tick?)
    ensures Coherent(Take(s, t))
  {
    CoherentMeans(s);
    CoherentMeans(Take(s, t));
    hide Coherent;
    forall q | q in s.callers ensures CallerOk(Take(s, t), q, s.callers[q]) {
      assert CallerOk(s, q, s.callers[q]);
    }
  }

  lemma LookKeepsCoherent(s: State, t: Step)
    requires Coherent(s) && Enabled(s, t) && (t.Call? || t.ReadUnlocked? || t.Lock? || t.LockTimeout?)
    ensures Coherent(Take(s, t))
  {
    CoherentMeans(s);
    assert t.p in s.callers ==> CallerOk(s, t.p, s.callers[t.p]);
    assert forall q :: q in s.callers && q != t.p && Locking(s.callers[q]) ==> s.lock == Some(q);
    hide Coherent;
    OneCallerMoves(s, Take(s, t), t.p);
  }

  lemma HolderKeepsCoherent(s: State, t: Step)
    requires Coherent(s) && Enabled(s, t)
    requires t.Decline? || t.Refuse? || t.Accept? || t.Commit? || t.LoseCommit?
    ensures Coherent(Take(s, t))
  {
    CoherentMeans(s);
    assert CallerOk(s, t.p, s.callers[t.p]);
    assert forall q :: q in s.callers && Locking(s.callers[q]) ==> q == t.p;
    hide Coherent, AccessExpired;
    OneCallerMoves(s, Take(s, t), t.p);
  }

  lemma StepKeepsCoherent(s: State, t: Step)
    requires Coherent(s) && Enabled(s, t)
    ensures Coherent(Take(s, t))
  {
    hide Coherent, Enabled, Take;
    match t
    case Store(_) => StoreOrTickKeepsCoherent(s, t);
    case Tick(_) => StoreOrTickKeepsCoherent(s, t);
    case Call(_, _) => LookKeepsCoherent(s, t);
    case ReadUnlocked(_) => LookKeepsCoherent(s, t);
    case Lock(_) => LookKeepsCoherent(s, t);
    case LockTimeout(_) => LookKeepsCoherent(s, t);
    case _ => HolderKeepsCoherent(s, t);
  }

  lemma {:induction false} CallsReturnWholeVersions(ss: seq<State>, ts: seq<Step>, i: nat)
    requires IsRun(ss, ts) && i < |ss|
    ensures Coherent(ss[i])
  {
    if i > 0 {
      CallsReturnWholeVersions(ss, ts, i - 1);
      StepKeepsCoherent(ss[i - 1], ts[i - 1]);
    }
  }

  /** No call is stuck for good: whatever the others do, each one that has not ended can take a step of its own, the
      one that waits for the lock because it may give up, and the one that holds it can let it go. */
  lemma NobodyIsStuck(s: State, p: Pid)
    requires p in s.callers && !s.callers[p].Returned? && !s.callers[p].ReturnedNothing? && !s.callers[p].Raised?
    ensures s.callers[p].Called? ==> Enabled(s, ReadUnlocked(p))
    ensures s.callers[p].Waiting? ==> Enabled(s, LockTimeout(p)) && (s.lock.None? ==> Enabled(s, Lock(p)))
    ensures s.versions != [] && Locking(s.callers[p]) ==>
              exists t :: Enabled(s, t) && (t.Decline? || t.Commit?) && t.p == p && Take(s, t).lock.None?
  {
    if s.versions != [] && Locking(s.callers[p]) {
      var t := if s.callers[p].Refreshing? then Decline(p) else Commit(p);
      assert Enabled(s, t) && Take(s, t).lock.None?;
    }
  }

  /** As long as there always was a row, no call says that there is none. */
  lemma ARowIsAlwaysFound(ss: seq<State>, ts: seq<Step>, i: nat, p: Pid)
    requires IsRun(ss, ts) && i < |ss| && p in ss[i].callers
    requires forall k :: 0 <= k < |ss[i].versions| ==> ss[i].versions[k].Some?
    ensures !ss[i].callers[p].ReturnedNothing?
  {
    CallsReturnWholeVersions(ss, ts, i);
  }

  /** On an unexpired row the unlocked read returns what the locked path would. */
  lemma FastPathIsLockedPath(s: State, p: Pid)
    requires s.versions != [] && s.lock.None? && Enabled(s, ReadUnlocked(p)) && s.callers[p].checks
    requires Current(s).None? || !AccessExpired(Current(s).value, s.now)
    ensures Take(s, ReadUnlocked(p)) == Take(Now(s, p, Waiting(s.callers[p].since)), Lock(p))
  {
    var since, last := s.callers[p].since, |s.versions| - 1;
    var c := if Current(s).None? then ReturnedNothing(since, last) else Returned(since, last, Current(s).value);
    assert Now(s, p, Waiting(since)).callers[p := c] == s.callers[p := c];
  }

  /** One caller from its first read to the provider's answer. */
  function Refreshed(s: State, p: Pid, tokens: Row): State
    requires s.versions != [] && s.lock.None? && p !in s.callers
    requires Current(s).Some? && AccessExpired(Current(s).value, s.now)
  {
    Take(Take(Take(Take(s, Call(p, true)), ReadUnlocked(p)), Lock(p)), Accept(p, tokens))
  }

  /** If an accepted refresh is not committed, the next caller shows the consumed token again. */
  lemma LostCommitReusesTheToken(row: Row, now: int, a: Row, b: Row)
    requires AccessExpired(row, now)
    ensures var s := Take(Refreshed(Initial(now, Some(row)), 1, a), LoseCommit(1));
            !NeverReused(Refreshed(s, 2, b).shown)
  {
    var s := Refreshed(Take(Refreshed(Initial(now, Some(row)), 1, a), LoseCommit(1)), 2, b);
    assert s.shown == [Presentation(row.refresh, true), Presentation(row.refresh, true)];
    assert s.shown[0].accepted && s.shown[1].token == s.shown[0].token;
  }

  // ---- one call without interference ----

  datatype Check = NotNeeded | Raises | NewTokens(tokens: Row)

  datatype Loaded = NoRecord | Tokens(row: Row) | Failed

  class AuthTokenStore {
    var record: Option<Row>

    method StoreTokens(row: Row)
      modifies this
      ensures record == Some(row)
    {
      record := Some(row);
    }

    /** `check` is what the check-and-refresh function would answer, if one is given; `t1` and `t2` are the
        times of the two looks at the row. */
    method LoadTokens(t1: int, t2: int, check: Option<Check>) returns (r: Loaded, consulted: bool)
      modifies this
      ensures consulted <==> old(record).Some? && check.Some?
                             && AccessExpired(old(record).value, t1) && AccessExpired(old(record).value, t2)
      ensures !consulted ==>
                record == old(record) && r == if old(record).None? then NoRecord else Tokens(old(record).value)
      ensures consulted && check.value.NewTokens? ==>
                record == Some(check.value.tokens) && r == Tokens(check.value.tokens)
      ensures consulted && !check.value.NewTokens? ==> record == old(record)
      ensures r.NoRecord? <==> old(record).None?
      ensures r.Failed? <==> consulted && check.value.Raises?
      ensures r.Tokens? ==> record == Some(r.row)
    {
      if record.None? {
        return NoRecord, false;
      }
      if !AccessExpired(record.value, t1) || check.None? {
        return Tokens(record.value), false;
      }
      var locked := record.value;
      if !AccessExpired(locked, t2) {
        return Tokens(locked), false;
      }
      consulted := true;
      match check.value
      case Raises => r := Failed;
      case NotNeeded => r := Tokens(locked);
      case NewTokens(tokens) =>
        record := Some(tokens);
        r := Tokens(tokens);
    }

    /** Loads without a check, so nothing is refreshed; a record is valid for at least thirty seconds. */
    method IsAccessTokenValid(t: int) returns (valid: bool)
      modifies this
      ensures record == old(record)
      ensures valid <==> record.Some? && AccessValid(record.value, t)
    {
      var r, _ := LoadTokens(t, t, None);
      valid := r.Tokens? && r.row.accessExpires > t + VALIDITY_MARGIN;
    }
  }

  // ---- the class takes the steps of the model ----

  /** The steps in order, each of which is possible when its time comes. */
  ghost predicate Takes(s: State, ts: seq<Step>, s': State)
    decreases |ts|
  {
    if ts == [] then s' == s
    else s.versions != [] && Enabled(s, ts[0]) && Takes(Take(s, ts[0]), ts[1..], s')
  }

  /** What a call that has ended gives to its caller. */
  predicate Gives(c: Caller, r: Loaded) {
    match r
    case NoRecord => c.ReturnedNothing?
    case Tokens(row) => c.Returned? && c.row == row
    case Failed => c.Raised?
  }

  lemma TakesNothing(s: State)
    ensures Takes(s, [], s)
  {
  }

  lemma TakesOneMore(s: State, ts: seq<Step>, s1: State, t: Step, s2: State)
    requires Takes(s, ts, s1) && s1.versions != [] && Enabled(s1, t) && s2 == Take(s1, t)
    ensures Takes(s, ts + [t], s2)
    decreases |ts|
  {
    if ts == [] {
      assert ts + [t] == [t] && [t][1..] == [];
    } else {
      assert (ts + [t])[1..] == ts[1..] + [t];
      TakesOneMore(Take(s, ts[0]), ts[1..], s1, t, s2);
    }
  }

  /** A call on the class that nobody interrupts ends as a call of the model does, with the same record. */
  method LoadTokensInSteps(store: AuthTokenStore, t1: nat, t2: nat, check: Option<Check>, ghost s: State, ghost p: Pid)
    returns (r: Loaded, ghost s': State, ghost ts: seq<Step>)
    requires s.versions != [] && Current(s) == store.record && s.now == t1 <= t2 && s.lock.None? && p !in s.callers
    modifies store
    ensures Takes(s, ts, s')
    ensures p in s'.callers && Gives(s'.callers[p], r)
    ensures Current(s') == store.record && s'.lock.None? && s'.now in {t1, t2}
    ensures forall q :: q in s.callers ==> q in s'.callers && s'.callers[q] == s.callers[q]
  {
    ghost var row := store.record;
    var consulted;
    r, consulted := store.LoadTokens(t1, t2, check);
    ts, s' := FirstLook(s, p, check.Some?);
    if row.Some? && AccessExpired(row.value, t1) && check.Some? {
      ts, s' := SecondLook(s, ts, s', p, t2 - t1, check.value);
    }
  }

  /** The other calls are as they were, and nobody holds the lock. */
  ghost predicate OthersStay(s: State, s': State) {
    s'.lock.None? && forall q :: q in s.callers ==> q in s'.callers && s'.callers[q] == s.callers[q]
  }

  lemma FirstLook(s: State, p: Pid, checks: bool) returns (ts: seq<Step>, s': State)
    requires s.versions != [] && s.lock.None? && p !in s.callers
    ensures Takes(s, ts, s') && OthersStay(s, s') && s'.now == s.now && s'.versions == s.versions && p in s'.callers
    ensures match Current(s)
            case None => s'.callers[p].ReturnedNothing?
            case Some(row) =>
              if AccessExpired(row, s.now) && checks then s'.callers[p].Waiting?
              else s'.callers[p].Returned? && s'.callers[p].row == row
  {
    TakesNothing(s);
    hide Takes;
    ts, s' := Next(s, [], s, Call(p, checks));
    ts, s' := Next(s, ts, s', ReadUnlocked(p));
  }

  /** The call that waits for the lock gets it after d and looks again. */
  lemma SecondLook(s: State, ts: seq<Step>, s1: State, p: Pid, d: nat, check: Check) returns (ts': seq<Step>, s': State)
    requires Takes(s, ts, s1) && OthersStay(s, s1) && s1.versions != [] && Current(s1).Some?
    requires p !in s.callers && p in s1.callers && s1.callers[p].Waiting?
    ensures Takes(s, ts', s') && OthersStay(s, s') && s'.now == s1.now + d && p in s'.callers && s'.versions != []
    ensures var row := Current(s1).value;
            if !AccessExpired(row, s1.now + d) || check.NotNeeded?
            then s'.callers[p].Returned? && s'.callers[p].row == row && Current(s') == Some(row)
            else if check.Raises? then s'.callers[p].Raised? && Current(s') == Some(row)
            else s'.callers[p].Returned? && s'.callers[p].row == check.tokens && Current(s') == Some(check.tokens)
    ensures var row := Current(s1).value;
            s'.shown == if !AccessExpired(row, s1.now + d) || check.NotNeeded? then s1.shown
                        else s1.shown + [Presentation(row.refresh, check.NewTokens?)]
  {
    hide Takes;
    ts', s' := Next(s, ts, s1, Tick(d));
    ts', s' := Next(s, ts', s', Lock(p));
    if AccessExpired(Current(s1).value, s1.now + d) {
      match check
      case NotNeeded => ts', s' := Next(s, ts', s', Decline(p));
      case Raises => ts', s' := Next(s, ts', s', Refuse(p));
      case NewTokens(tokens) =>
        ts', s' := Next(s, ts', s', Accept(p, tokens));
        ts', s' := Next(s, ts', s', Commit(p));
    }
  }

  /** And so does a store that finds the lock free. */
  method StoreTokensInSteps(store: AuthTokenStore, row: Row, ghost s: State) returns (ghost s': State)
    requires s.versions != [] && Current(s) == store.record && s.lock.None?
    modifies store
    ensures Takes(s, [Store(row)], s') && Current(s') == store.record == Some(row) && s'.callers == s.callers
  {
    store.StoreTokens(row);
    TakesNothing(s);
    ghost var ts;
    ts, s' := Next(s, [], s, Store(row));
  }

  lemma Next(s: State, ts: seq<Step>, s1: State, t: Step) returns (ts': seq<Step>, s2: State)
    requires Takes(s, ts, s1) && s1.versions != [] && Enabled(s1, t)
    ensures Takes(s, ts', s2) && ts' == ts + [t] && s2 == Take(s1, t)
  {
    ts', s2 := ts + [t], Take(s1, t);
    TakesOneMore(s, ts, s1, t, s2);
  }
}
