/** Deliveries for one entry that overlap: each is a transaction that first reads and locks the rows there are and
    later writes them or inserts one. Nothing keeps the table from holding several rows for one entry, and a read that
    finds no row locks nothing. */
module ConversationOverlap {
  import opened Events
  import opened ConversationStarter

  datatype Pid = Pid(number: int)

  /** What a transaction found when it began. */
  datatype Phase = FoundNothing | Found(entry: Entry)

  /** `rows` are the committed rows of the entry, `open` the transactions under way, `begun` and `done` all that ever
      began and those that committed, in order; `inserted` inserted a row and `returned` returned a group. */
  datatype Store = Store(rows: seq<Entry>, open: map<Pid, Phase>, begun: set<Pid>, done: seq<Pid>,
                         inserted: set<Pid>, returned: set<Pid>)

  /** `first` is the row that a read of several rows returns first. */
  datatype Step = Begin(p: Pid, first: nat) | Commit(p: Pid) | Abort(p: Pid)

  /** A transaction waits with its read until no other one holds the lock on the rows. */
  predicate Possible(s: Store, t: Step) {
    match t
    case Begin(p, first) =>
      && p !in s.begun
      && (s.rows == [] || (first < |s.rows| && forall q :: q in s.open ==> s.open[q].FoundNothing?))
    case Commit(p) => p in s.open
    case Abort(p) => p in s.open
  }

  function Written(s: Store, p: Pid, d: Delivery): (Entry, Option<Group>)
    requires p in s.open
  {
    var found := if s.open[p].FoundNothing? then None else Some(s.open[p].entry);
    var (entry, group) := Deliver(found, d.initial, d.run);
    (entry.value, group)
  }

  /** An update writes all rows of the entry; an entry already sent is left alone. */
  function Take(s: Store, t: Step, d: Pid -> Delivery): Store
    requires Possible(s, t)
  {
    match t
    case Begin(p, first) =>
      s.(begun := s.begun + {p}, open := s.open[p := if s.rows == [] then FoundNothing else Found(s.rows[first])])
    case Abort(p) => s.(open := s.open - {p})
    case Commit(p) =>
      var (entry, group) := Written(s, p, d(p));
      s.(open := s.open - {p},
         done := s.done + [p],
         inserted := if s.open[p].FoundNothing? then s.inserted + {p} else s.inserted,
         returned := if group.Some? then s.returned + {p} else s.returned,
         rows := if s.open[p].FoundNothing? then s.rows + [entry]
                 else if s.open[p].entry.sent then s.rows
                 else seq(|s.rows|, _ => entry))
  }

  /** Any interleaving: the steps in order, where one that has to wait is skipped. What is delivered by whom is given
      apart from it. */
  function Through(ts: seq<Step>, d: Pid -> Delivery): Store {
    if ts == [] then Store([], map[], {}, [], {}, {})
    else
      var s, t := Through(ts[..|ts| - 1], d), ts[|ts| - 1];
      if Possible(s, t) then Take(s, t, d) else s
  }

  predicate AtMostOnce(s: Store) {
    forall p, q :: p in s.returned && q in s.returned ==> p == q
  }

  // ---- what every interleaving keeps ----

  predicate Orderly(s: Store) {
    && s.open.Keys <= s.begun && s.inserted <= s.begun && |s.inserted| == |s.rows|
    && (forall k :: 0 <= k < |s.done| ==> s.done[k] in s.begun && s.done[k] !in s.open)
    && (forall j, k :: 0 <= j < k < |s.done| ==> s.done[j] != s.done[k])
    && (forall p :: p in s.inserted ==> p in s.done)
  }

  lemma StepKeepsOrderly(s: Store, t: Step, d: Pid -> Delivery)
    requires Orderly(s) && Possible(s, t)
    ensures Orderly(Take(s, t, d))
  {
    hide Written;
  }

  lemma {:induction false} AlwaysOrderly(ts: seq<Step>, d: Pid -> Delivery)
    ensures Orderly(Through(ts, d))
  {
    if ts != [] {
      AlwaysOrderly(ts[..|ts| - 1], d);
      var s, t := Through(ts[..|ts| - 1], d), ts[|ts| - 1];
      if Possible(s, t) {
        StepKeepsOrderly(s, t, d);
      }
      hide Take, Orderly, Possible;
    }
  }

  /** What is delivered does not matter for who waits, reads, inserts and ends. */
  predicate SameShape(a: Store, b: Store) {
    && |a.rows| == |b.rows| && a.open.Keys == b.open.Keys && a.begun == b.begun && a.done == b.done
    && a.inserted == b.inserted
    && (forall p :: p in a.open ==> (a.open[p].FoundNothing? <==> b.open[p].FoundNothing?))
  }

  lemma {:induction false} ShapeIgnoresContents(ts: seq<Step>, d: Pid -> Delivery, e: Pid -> Delivery)
    ensures SameShape(Through(ts, d), Through(ts, e))
  {
    hide Written;
    if ts != [] {
      ShapeIgnoresContents(ts[..|ts| - 1], d, e);
    }
  }

  // ---- with one row: any interleaving is a sequence of deliveries ----

  function Deliveries(ps: seq<Pid>, d: Pid -> Delivery): (ds: seq<Delivery>)
    ensures |ds| == |ps|
  {
    seq(|ps|, k requires 0 <= k < |ps| => d(ps[k]))
  }

  /** The row is the one that the committed deliveries leave, one after the other. */
  predicate RowIsSerial(s: Store, d: Pid -> Delivery) {
    && (s.rows == [] <==> s.done == [])
    && (s.rows != [] ==> EntryAfter(Deliveries(s.done, d)) == Some(s.rows[0]))
    && (forall p :: p in s.open && s.open[p].Found? ==> s.rows != [] && s.open[p].entry == s.rows[0])
    && (forall p, q :: p in s.open && q in s.open && s.open[p].Found? && s.open[q].Found? ==> p == q)
  }

  /** Exactly those return a group that do so when the committed deliveries come one after the other. */
  predicate ReturnsAreSerial(s: Store, d: Pid -> Delivery) {
    && (forall p :: p in s.returned ==> p in s.done)
    && (forall k :: 0 <= k < |s.done| ==>
          (s.done[k] in s.returned <==> Returned(Deliveries(s.done[..k + 1], d)).Some?))
  }

  predicate Serial(s: Store, d: Pid -> Delivery) {
    RowIsSerial(s, d) && ReturnsAreSerial(s, d)
  }

  lemma CommitIsADelivery(s: Store, p: Pid, d: Pid -> Delivery)
    requires Orderly(s) && RowIsSerial(s, d) && p in s.open && |Take(s, Commit(p), d).rows| <= 1
    requires p !in s.returned
    ensures var (s', ds) := (Take(s, Commit(p), d), Deliveries(s.done + [p], d));
            && s'.rows != [] && EntryAfter(ds) == Some(s'.rows[0])
            && (p in s'.returned <==> Returned(ds).Some?)
            && (forall q :: q in s'.open && s'.open[q].Found? ==> s'.open[q].entry == s'.rows[0])
  {
    var before, after := Deliveries(s.done, d), Deliveries(s.done + [p], d);
    assert after == before + [d(p)] && after[..|before|] == before;
    assert EntryAfter(before) == if s.open[p].FoundNothing? then None else Some(s.open[p].entry);
    assert EntryAfter(after) == Deliver(EntryAfter(before), d(p).initial, d(p).run).0;
    assert Returned(after) == Deliver(EntryAfter(before), d(p).initial, d(p).run).1;
    hide EntryAfter, Returned, Deliveries, Ready;
  }

  lemma ReturnsStaySerial(s: Store, s': Store, p: Pid, d: Pid -> Delivery)
    requires ReturnsAreSerial(s, d) && p !in s.done && s'.done == s.done + [p]
    requires s'.returned == s.returned || s'.returned == s.returned + {p}
    requires p in s'.returned <==> Returned(Deliveries(s.done + [p], d)).Some?
    ensures ReturnsAreSerial(s', d)
  {
    hide Returned, Deliveries;
    forall k | 0 <= k < |s'.done|
      ensures s'.done[k] in s'.returned <==> Returned(Deliveries(s'.done[..k + 1], d)).Some?
    {
      if k < |s.done| {
        assert s'.done[..k + 1] == s.done[..k + 1];
      } else {
        assert s'.done[..k + 1] == s'.done;
      }
    }
  }

  lemma CommitStaysSerial(s: Store, p: Pid, d: Pid -> Delivery)
    requires Orderly(s) && Serial(s, d) && p in s.open && |Take(s, Commit(p), d).rows| <= 1
    ensures Serial(Take(s, Commit(p), d), d)
  {
    assert p !in s.done && p !in s.returned;
    CommitIsADelivery(s, p, d);
    hide EntryAfter, Returned, Deliveries, Written, ReturnsAreSerial;
    ReturnsStaySerial(s, Take(s, Commit(p), d), p, d);
  }

  lemma BeginOrAbortStaysSerial(s: Store, t: Step, d: Pid -> Delivery)
    requires Orderly(s) && Serial(s, d) && Possible(s, t) && !t.Commit? && |s.rows| <= 1
    ensures Serial(Take(s, t, d), d)
  {
    hide EntryAfter, Returned, Deliver, Deliveries;
  }

  lemma PossibleCommit(s: Store, p: Pid)
    ensures Possible(s, Commit(p)) <==> p in s.open
  {
  }

  lemma RowsGrow(s: Store, t: Step, d: Pid -> Delivery)
    requires Possible(s, t)
    ensures |s.rows| <= |Take(s, t, d).rows|
  {
  }

  lemma {:induction false} OneRowIsSerial(ts: seq<Step>, d: Pid -> Delivery)
    requires |Through(ts, d).rows| <= 1
    ensures Serial(Through(ts, d), d)
  {
    if ts != [] {
      var s, t := Through(ts[..|ts| - 1], d), ts[|ts| - 1];
      AlwaysOrderly(ts[..|ts| - 1], d);
      hide Serial, Orderly, Take, Possible;
      if Possible(s, t) {
        RowsGrow(s, t, d);
      }
      OneRowIsSerial(ts[..|ts| - 1], d);
      if Possible(s, t) {
        if t.Commit? {
          PossibleCommit(s, t.p);
          CommitStaysSerial(s, t.p, d);
        } else {
          BeginOrAbortStaysSerial(s, t, d);
        }
      }
    }
  }

  lemma DeliveriesPrefix(ps: seq<Pid>, d: Pid -> Delivery, k: nat)
    requires k <= |ps|
    ensures Deliveries(ps[..k], d) == Deliveries(ps, d)[..k]
  {
  }

  lemma TwoReturnsAreOne(s: Store, d: Pid -> Delivery, j: nat, k: nat)
    requires ReturnsAreSerial(s, d) && j < k < |s.done|
    ensures s.done[j] !in s.returned || s.done[k] !in s.returned
  {
    hide Returned, Deliveries;
    DeliveriesPrefix(s.done, d, j + 1);
    DeliveriesPrefix(s.done, d, k + 1);
    ReturnedAtMostOnce(Deliveries(s.done, d), j + 1, k + 1);
  }

  lemma SerialReturnsOnce(s: Store, d: Pid -> Delivery)
    requires ReturnsAreSerial(s, d)
    ensures AtMostOnce(s)
  {
    forall p, q | p in s.returned && q in s.returned ensures p == q {
      assert p in s.done && q in s.done;
      hide ReturnsAreSerial;
      var j :| 0 <= j < |s.done| && s.done[j] == p;
      var k :| 0 <= k < |s.done| && s.done[k] == q;
      if j < k {
        TwoReturnsAreOne(s, d, j, k);
      } else if k < j {
        TwoReturnsAreOne(s, d, k, j);
      }
    }
  }

  // ---- two rows: exactly if two reads that found nothing overlap ----

  predicate LooksAtNothing(s: Store, p: Pid) {
    p in s.open && s.open[p].FoundNothing?
  }

  /** At step k transaction `q` finds nothing while `p`, which found nothing either, is still under way. */
  predicate OverlapsAt(ts: seq<Step>, k: nat, p: Pid, q: Pid, d: Pid -> Delivery) {
    && k < |ts| && ts[k].Begin? && ts[k].p == q
    && var s := Through(ts[..k], d); q !in s.begun && s.rows == [] && LooksAtNothing(s, p)
  }

  /** Two such transactions, and both commit. */
  ghost predicate Overlaps(ts: seq<Step>, d: Pid -> Delivery) {
    exists k: nat, p, q :: OverlapsAt(ts, k, p, q, d) && p in Through(ts, d).done && q in Through(ts, d).done
  }

  /** What matters of a transaction that found nothing: it is under way, or it inserted a row. */
  predicate MayInsert(s: Store, p: Pid) {
    LooksAtNothing(s, p) || p in s.inserted
  }

  lemma StepBack(ts: seq<Step>, d: Pid -> Delivery, p: Pid)
    requires ts != [] && MayInsert(Through(ts, d), p)
    ensures var s, t := Through(ts[..|ts| - 1], d), ts[|ts| - 1];
            MayInsert(s, p) || (t.Begin? && t.p == p && p !in s.begun && s.rows == [])
  {
    hide Written;
  }

  lemma {:induction false} TwoInsertionsOverlap(ts: seq<Step>, d: Pid -> Delivery, p: Pid, q: Pid) returns (k: nat)
    requires p != q && MayInsert(Through(ts, d), p) && MayInsert(Through(ts, d), q)
    ensures OverlapsAt(ts, k, p, q, d) || OverlapsAt(ts, k, q, p, d)
  {
    var front := ts[..|ts| - 1];
    AlwaysOrderly(front, d);
    StepBack(ts, d, p);
    StepBack(ts, d, q);
    if MayInsert(Through(front, d), p) && MayInsert(Through(front, d), q) {
      k := TwoInsertionsOverlap(front, d, p, q);
      assert front[..k] == ts[..k];
    } else {
      k := |ts| - 1;
    }
  }

  lemma {:induction false} CommitsAsInsertion(ts: seq<Step>, k: nat, p: Pid, d: Pid -> Delivery)
    requires k <= |ts| && LooksAtNothing(Through(ts[..k], d), p)
    ensures LooksAtNothing(Through(ts, d), p)
            || (p !in Through(ts, d).open && p in Through(ts, d).begun
                && (p in Through(ts, d).done ==> p in Through(ts, d).inserted))
  {
    hide Written;
    AlwaysOrderly(ts, d);
    if k < |ts| {
      var front := ts[..|ts| - 1];
      assert front[..k] == ts[..k];
      CommitsAsInsertion(front, k, p, d);
      AlwaysOrderly(front, d);
    } else {
      assert ts[..k] == ts;
    }
  }

  lemma OverlapInsertsTwice(ts: seq<Step>, k: nat, p: Pid, q: Pid, d: Pid -> Delivery)
    requires OverlapsAt(ts, k, p, q, d) && p in Through(ts, d).done && q in Through(ts, d).done
    ensures p != q && p in Through(ts, d).inserted && q in Through(ts, d).inserted
  {
    AlwaysOrderly(ts[..k], d);
    AlwaysOrderly(ts, d);
    CommitsAsInsertion(ts, k, p, d);
    assert ts[..k + 1][..k] == ts[..k];
    assert LooksAtNothing(Through(ts[..k + 1], d), q);
    CommitsAsInsertion(ts, k + 1, q, d);
  }

  lemma TwoMembers(s: set<Pid>) returns (p: Pid, q: Pid)
    requires |s| > 1
    ensures p in s && q in s && p != q
  {
    assert s != {};
    p :| p in s;
    var rest := s - {p};
    assert |rest| == |s| - 1 && rest != {};
    q :| q in rest;
  }

  lemma NoOverlapOneRow(ts: seq<Step>, d: Pid -> Delivery)
    requires !Overlaps(ts, d)
    ensures |Through(ts, d).rows| <= 1
  {
    var s := Through(ts, d);
    AlwaysOrderly(ts, d);
    if |s.rows| > 1 {
      var p, q := TwoMembers(s.inserted);
      var k := TwoInsertionsOverlap(ts, d, p, q);
    }
  }

  /** Without such an overlap the transactions act as if they had run one after the other, and the group is returned
      at most once. */
  lemma ReturnedOnceWithoutOverlap(ts: seq<Step>, d: Pid -> Delivery)
    requires !Overlaps(ts, d)
    ensures Serial(Through(ts, d), d) && AtMostOnce(Through(ts, d))
  {
    NoOverlapOneRow(ts, d);
    OneRowIsSerial(ts, d);
    SerialReturnsOnce(Through(ts, d), d);
  }

  /** However many rows there are, a transaction that found one that was not sent leaves them all alike, and one that
      found one that was sent leaves them alone. */
  lemma UpdatesReachEveryRow(s: Store, p: Pid, d: Pid -> Delivery)
    requires p in s.open && s.open[p].Found?
    ensures var rows := Take(s, Commit(p), d).rows;
            && |rows| == |s.rows|
            && (s.open[p].entry.sent ==> rows == s.rows)
            && (!s.open[p].entry.sent ==>
                  forall k :: 0 <= k < |rows| ==> rows[k].runs == s.open[p].entry.runs[d(p).run.id := d(p).run])
  {
  }

  /** Whoever aborts leaves nothing behind but being known, and then blocks nobody. */
  lemma AbortsLeaveNothing(s: Store, p: Pid, d: Pid -> Delivery)
    requires p in s.open
    ensures Take(s, Abort(p), d) == s.(open := map q | q in s.open && q != p :: s.open[q])
  {
  }

  // ---- the converse ----

  const Failing := Delivery(map[], WorkflowRun("1", "test", FAILURE))

  predicate AllSent(s: Store) {
    && (forall k :: 0 <= k < |s.rows| ==> s.rows[k].sent)
    && (forall p :: p in s.open && s.open[p].Found? ==> s.open[p].entry.sent)
    && s.returned == s.inserted
  }

  /** If every delivery reports a failed run, each transaction that inserts a row returns a group. */
  lemma {:induction false} EveryInsertionReturns(ts: seq<Step>)
    ensures AllSent(Through(ts, _ => Failing))
  {
    if ts != [] {
      EveryInsertionReturns(ts[..|ts| - 1]);
      assert "1" in map["1" := Failing.run] && Ready(map["1" := Failing.run]);
      assert Failing.initial[Failing.run.id := Failing.run] == map["1" := Failing.run];
    }
  }

  lemma OverlapIgnoresContents(ts: seq<Step>, d: Pid -> Delivery, e: Pid -> Delivery)
    requires Overlaps(ts, d)
    ensures Overlaps(ts, e)
  {
    var k: nat, p, q :| OverlapsAt(ts, k, p, q, d) && p in Through(ts, d).done && q in Through(ts, d).done;
    ShapeIgnoresContents(ts[..k], d, e);
    ShapeIgnoresContents(ts, d, e);
    assert OverlapsAt(ts, k, p, q, e);
  }

  /** The exact condition: an interleaving returns the group at most once, whatever is delivered, if and only if no
      transaction finds nothing while another that found nothing is under way and both commit. */
  lemma ReturnedOnceIffNoOverlap(ts: seq<Step>)
    ensures (forall d: Pid -> Delivery :: AtMostOnce(Through(ts, d)))
            <==> (forall d: Pid -> Delivery :: !Overlaps(ts, d))
  {
    var fail: Pid -> Delivery := _ => Failing;
    if d: Pid -> Delivery :| Overlaps(ts, d) {
      OverlapIgnoresContents(ts, d, fail);
      var k: nat, p, q :| OverlapsAt(ts, k, p, q, fail) && p in Through(ts, fail).done && q in Through(ts, fail).done;
      OverlapInsertsTwice(ts, k, p, q, fail);
      EveryInsertionReturns(ts);
      assert !AtMostOnce(Through(ts, fail));
    } else {
      forall d: Pid -> Delivery ensures AtMostOnce(Through(ts, d)) {
        ReturnedOnceWithoutOverlap(ts, d);
      }
    }
  }

  const First := Pid(1)
  const Second := Pid(2)
  const Third := Pid(3)

  /** The shortest such run: two first deliveries both read before either inserts, and both return a group. */
  lemma TwoFirstDeliveriesBothReturn(d: Pid -> Delivery)
    requires Ready(d(First).initial[d(First).run.id := d(First).run])
    requires Ready(d(Second).initial[d(Second).run.id := d(Second).run])
    ensures Through([Begin(First, 0), Begin(Second, 0), Commit(First), Commit(Second)], d).returned == {First, Second}
  {
    hide Ready;
    assert Through([], d) == Store([], map[], {}, [], {}, {});
    var s1 := ThroughOne([], Begin(First, 0), d);
    assert [] + [Begin(First, 0)] == [Begin(First, 0)];
    var s2 := ThroughOne([Begin(First, 0)], Begin(Second, 0), d);
    assert s2.open == map[First := FoundNothing, Second := FoundNothing] && s2.rows == [];
    assert [Begin(First, 0)] + [Begin(Second, 0)] == [Begin(First, 0), Begin(Second, 0)];
    var s3 := ThroughOne([Begin(First, 0), Begin(Second, 0)], Commit(First), d);
    assert s3.returned == {First} && s3.open == map[Second := FoundNothing];
    assert [Begin(First, 0), Begin(Second, 0)] + [Commit(First)] == [Begin(First, 0), Begin(Second, 0), Commit(First)];
    var s4 := ThroughOne([Begin(First, 0), Begin(Second, 0), Commit(First)], Commit(Second), d);
    assert s4.returned == {First, Second};
    assert [Begin(First, 0), Begin(Second, 0), Commit(First)] + [Commit(Second)]
        == [Begin(First, 0), Begin(Second, 0), Commit(First), Commit(Second)];
  }

  lemma ThroughOne(ts: seq<Step>, t: Step, d: Pid -> Delivery) returns (s: Store)
    ensures s == Through(ts + [t], d)
    ensures s == if Possible(Through(ts, d), t) then Take(Through(ts, d), t, d) else Through(ts, d)
  {
    assert (ts + [t])[..|ts|] == ts;
    s := Through(ts + [t], d);
  }

  /** A transaction that found nothing blocks nobody: while the second of them is under way, a third begins and finds
      the row that the first has inserted. */
  lemma FindingNothingBlocksNobody(d: Pid -> Delivery)
    ensures var s := Through([Begin(First, 0), Begin(Second, 0), Commit(First), Begin(Third, 0)], d);
            && Second in s.open && s.open[Second].FoundNothing?
            && Third in s.open && s.open[Third].Found? && [s.open[Third].entry] == s.rows
  {
    hide Ready;
    assert Through([], d) == Store([], map[], {}, [], {}, {});
    var s1 := ThroughOne([], Begin(First, 0), d);
    assert [] + [Begin(First, 0)] == [Begin(First, 0)];
    var s2 := ThroughOne([Begin(First, 0)], Begin(Second, 0), d);
    assert s2.open == map[First := FoundNothing, Second := FoundNothing] && s2.rows == [];
    assert [Begin(First, 0)] + [Begin(Second, 0)] == [Begin(First, 0), Begin(Second, 0)];
    var s3 := ThroughOne([Begin(First, 0), Begin(Second, 0)], Commit(First), d);
    assert s3.open == map[Second := FoundNothing] && |s3.rows| == 1;
    assert [Begin(First, 0), Begin(Second, 0)] + [Commit(First)] == [Begin(First, 0), Begin(Second, 0), Commit(First)];
    var s4 := ThroughOne([Begin(First, 0), Begin(Second, 0), Commit(First)], Begin(Third, 0), d);
    assert [Begin(First, 0), Begin(Second, 0), Commit(First)] + [Begin(Third, 0)]
        == [Begin(First, 0), Begin(Second, 0), Commit(First), Begin(Third, 0)];
  }
}
