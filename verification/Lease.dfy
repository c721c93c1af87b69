/** The lease by which the nodes of a cluster agree who hosts a conversation: a Redis key set only if absent,
    refreshed while the conversation runs, deleted after the loop was removed, and lapsing otherwise. */
module Lease {

  /** A conversation key carries the user as well as the conversation. */
  datatype Key = Key(user: string, sid: string)

  type Node = int

  /** Milliseconds before a Redis entry lapses. */
  const LEASE: nat := 15000

  // ---- Redis ----

  predicate Live(keys: map<Key, nat>, now: nat, k: Key) {
    k in keys && now < keys[k]
  }

  function SidsWithKey(keys: map<Key, nat>, now: nat): set<string> {
    set k | k in keys && Live(keys, now, k) :: k.sid
  }

  function Refreshed(keys: map<Key, nat>, now: nat, ks: set<Key>): map<Key, nat> {
    keys + map k | k in ks :: now + LEASE
  }

  // ---- the protocol ----

  /** Starting: the key was set, the loop is not registered yet. Closing: the loop is gone, the delete has
      not reached Redis yet. */
  datatype Phase = Starting | Hosting | Closing

  /** What a node has to do with a key, and when a command of its own last wrote the key. */
  datatype Slot = Slot(phase: Phase, writtenAt: nat)

  /** `built` holds the keys for which a node once built a refresh, which may reach Redis at any later time. */
  datatype Cluster = Cluster(now: nat, keys: map<Key, nat>, slots: map<(Node, Key), Slot>, built: set<(Node, Key)>)

  datatype Step =
    | Acquire(n: Node, k: Key)       // SET NX EX succeeds
    | Register(n: Node, k: Key)      // the loop enters the local map
    | Abandon(n: Node, k: Key)       // starting the loop fails
    | LandRefresh(n: Node, ks: set<Key>)
    | Pop(n: Node, k: Key)           // the loop leaves the local map
    | LandDelete(n: Node, k: Key)
    | LoseDelete(n: Node, k: Key)
    | Crash(n: Node)
    | Tick(d: nat)

  predicate InPhase(c: Cluster, n: Node, k: Key, p: Phase) {
    (n, k) in c.slots && c.slots[(n, k)].phase == p
  }

  predicate Enabled(c: Cluster, s: Step) {
    match s
    case Acquire(n, k) => !Live(c.keys, c.now, k)
    case Register(n, k) => InPhase(c, n, k, Starting)
    case Abandon(n, k) => InPhase(c, n, k, Starting)
    case LandRefresh(n, ks) => forall k :: k in ks ==> (n, k) in c.built
    case Pop(n, k) => InPhase(c, n, k, Hosting)
    case LandDelete(n, k) => InPhase(c, n, k, Closing)
    case LoseDelete(n, k) => InPhase(c, n, k, Closing)
    case _ => true
  }

  function Take(c: Cluster, s: Step): Cluster
    requires Enabled(c, s)
  {
    match s
    case Acquire(n, k) =>
      c.(keys := Refreshed(c.keys, c.now, {k}), slots := c.slots[(n, k) := Slot(Starting, c.now)])
    case Register(n, k) =>
      c.(slots := c.slots[(n, k) := c.slots[(n, k)].(phase := Hosting)], built := c.built + {(n, k)})
    case Abandon(n, k) => c.(slots := c.slots - {(n, k)})
    case LandRefresh(n, ks) =>
      c.(keys := Refreshed(c.keys, c.now, ks),
         slots := map x | x in c.slots :: if x.0 == n && x.1 in ks then c.slots[x].(writtenAt := c.now) else c.slots[x])
    case Pop(n, k) => c.(slots := c.slots[(n, k) := c.slots[(n, k)].(phase := Closing)])
    case LandDelete(n, k) => c.(keys := c.keys - {k}, slots := c.slots - {(n, k)})
    case LoseDelete(n, k) => c.(slots := c.slots - {(n, k)})
    case Crash(n) => c.(slots := map x | x in c.slots && (x.0 != n || c.slots[x].phase == Closing) :: c.slots[x])
    case Tick(d) => c.(now := c.now + d)
  }

  const Empty := Cluster(0, map[], map[], {})

  ghost predicate IsRun(cs: seq<Cluster>, steps: seq<Step>) {
    && |cs| == |steps| + 1
    && forall i :: 0 <= i < |steps| ==> Enabled(cs[i], steps[i]) && cs[i + 1] == Take(cs[i], steps[i])
  }

  /** The timing assumption, local to each node: it registers the loop, refreshes the key, or gets its delete
      to Redis, before the lease of its own last write has lapsed. */
  predicate Timely(c: Cluster) {
    forall x :: x in c.slots ==> c.now < c.slots[x].writtenAt + LEASE
  }

  /** Only time makes a node late. */
  lemma StepStaysTimely(c: Cluster, s: Step)
    requires Timely(c) && Enabled(c, s) && !s.Tick?
    ensures Timely(Take(c, s))
  {
  }

  // ---- mutual exclusion ----

  /** Every slot is backed by a key that lives at least as long as the node's own lease, and no two nodes
      have a slot for one key. */
  predicate Leased(c: Cluster) {
    && (forall x :: x in c.slots ==>
          x.1 in c.keys && c.keys[x.1] >= c.slots[x].writtenAt + LEASE && c.slots[x].writtenAt <= c.now)
    && (forall x, y :: x in c.slots && y in c.slots && x.1 == y.1 ==> x.0 == y.0)
  }

  /** The set-if-absent that starts a conversation succeeds only where no live node hosts, starts or is still
      closing it. */
  lemma StartOnlyWhereUnheld(c: Cluster, n: Node, k: Key)
    requires Leased(c) && Timely(c) && Enabled(c, Acquire(n, k))
    ensures forall x :: x in c.slots ==> x.1 != k
  {
    assert forall x :: x in c.slots ==> Live(c.keys, c.now, x.1);
  }

  lemma AcquireKeepsLeased(c: Cluster, n: Node, k: Key)
    requires Leased(c) && Timely(c) && Enabled(c, Acquire(n, k))
    ensures Leased(Take(c, Acquire(n, k)))
  {
    StartOnlyWhereUnheld(c, n, k);
  }

  lemma DeleteKeepsLeased(c: Cluster, n: Node, k: Key)
    requires Leased(c) && Enabled(c, LandDelete(n, k))
    ensures Leased(Take(c, LandDelete(n, k)))
  {
    var c' := Take(c, LandDelete(n, k));
    forall x | x in c'.slots ensures x.1 != k {
      assert (n, k) in c.slots && (n, k).0 == n && (n, k).1 == k;
      assert x == (x.0, x.1);
    }
  }

  lemma RefreshKeepsLeased(c: Cluster, n: Node, ks: set<Key>)
    requires Leased(c) && Enabled(c, LandRefresh(n, ks))
    ensures Leased(Take(c, LandRefresh(n, ks)))
  {
    assert forall x :: x in Take(c, LandRefresh(n, ks)).slots ==> x in c.slots;
  }

  lemma StepKeepsLeased(c: Cluster, s: Step)
    requires Leased(c) && Timely(c) && Enabled(c, s)
    ensures Leased(Take(c, s))
  {
    match s
    case Acquire(n, k) => AcquireKeepsLeased(c, n, k);
    case LandDelete(n, k) => DeleteKeepsLeased(c, n, k);
    case LandRefresh(n, ks) => RefreshKeepsLeased(c, n, ks);
    case _ =>
  }

  /** Mutual exclusion: in every run whose nodes are timely, at most one node has a conversation in its
      local loop map. */
  lemma {:induction false} MutualExclusion(cs: seq<Cluster>, steps: seq<Step>, i: nat)
    requires IsRun(cs, steps) && i < |cs| && cs[0] == Empty
    requires forall j :: 0 <= j < i ==> Timely(cs[j])
    ensures Leased(cs[i])
    ensures forall n, m, k :: InPhase(cs[i], n, k, Hosting) && InPhase(cs[i], m, k, Hosting) ==> n == m
  {
    if i > 0 {
      MutualExclusion(cs, steps, i - 1);
      StepKeepsLeased(cs[i - 1], steps[i - 1]);
    }
    forall n, m, k | InPhase(cs[i], n, k, Hosting) && InPhase(cs[i], m, k, Hosting) ensures n == m {
      assert (n, k).1 == (m, k).1;
    }
  }

  /** The key names the user too, so for conversations (rather than keys) the starts must agree on the user. */
  predicate OwnerAgrees(steps: seq<Step>, owner: string -> string) {
    forall i :: 0 <= i < |steps| && steps[i].Acquire? ==> steps[i].k.user == owner(steps[i].k.sid)
  }

  lemma {:induction false} SlotsFollowOwner(cs: seq<Cluster>, steps: seq<Step>, owner: string -> string, i: nat)
    requires IsRun(cs, steps) && i < |cs| && cs[0] == Empty && OwnerAgrees(steps, owner)
    ensures forall x :: x in cs[i].slots ==> x.1.user == owner(x.1.sid)
  {
    if i > 0 {
      SlotsFollowOwner(cs, steps, owner, i - 1);
      assert cs[i] == Take(cs[i - 1], steps[i - 1]);
      forall x | x in cs[i].slots ensures x.1.user == owner(x.1.sid) {
        assert x in cs[i - 1].slots || (steps[i - 1].Acquire? && x.1 == steps[i - 1].k);
      }
    }
  }

  lemma OneHostPerConversation(cs: seq<Cluster>, steps: seq<Step>, owner: string -> string, i: nat)
    requires IsRun(cs, steps) && i < |cs| && cs[0] == Empty && OwnerAgrees(steps, owner)
    requires forall j :: 0 <= j < i ==> Timely(cs[j])
    ensures forall n, m, k, l ::
              InPhase(cs[i], n, k, Hosting) && InPhase(cs[i], m, l, Hosting) && k.sid == l.sid ==> n == m
  {
    MutualExclusion(cs, steps, i);
    SlotsFollowOwner(cs, steps, owner, i);
    forall n, m, k, l | InPhase(cs[i], n, k, Hosting) && InPhase(cs[i], m, l, Hosting) && k.sid == l.sid
      ensures n == m
    {
      assert (n, k).1.user == (m, l).1.user;
      assert k == l;
    }
  }

  /** Whatever happened before, a node may refresh every key it hosts. */
  lemma {:induction false} HostedKeysMayBeRefreshed(cs: seq<Cluster>, steps: seq<Step>, i: nat)
    requires IsRun(cs, steps) && i < |cs| && cs[0] == Empty
    ensures forall n, k :: InPhase(cs[i], n, k, Hosting) ==> (n, k) in cs[i].built
  {
    if i > 0 {
      HostedKeysMayBeRefreshed(cs, steps, i - 1);
      assert cs[i] == Take(cs[i - 1], steps[i - 1]);
    }
  }

  // ---- recovery: one winner, no false failover ----

  lemma {:induction false} KeyOutlivesGrant(cs: seq<Cluster>, steps: seq<Step>, i: nat, j: nat)
    requires IsRun(cs, steps) && i < j < |cs| && steps[i].Acquire?
    requires forall m :: i < m < j && steps[m].LandDelete? ==> steps[m].k != steps[i].k
    ensures steps[i].k in cs[j].keys && cs[j].keys[steps[i].k] >= cs[i].now + LEASE
    ensures cs[j].now >= cs[i].now
    decreases j
  {
    assert cs[i + 1] == Take(cs[i], steps[i]);
    if j > i + 1 {
      KeyOutlivesGrant(cs, steps, i, j - 1);
      assert cs[j] == Take(cs[j - 1], steps[j - 1]);
    }
  }

  /** Of several nodes that find no live key any one can start, and then no other can. */
  lemma FirstComesFirst(c: Cluster, n: Node, m: Node, k: Key)
    requires !Live(c.keys, c.now, k)
    ensures Enabled(c, Acquire(n, k)) && !Enabled(Take(c, Acquire(n, k)), Acquire(m, k))
  {
  }

  /** And for how long: after one start succeeded, another succeeds only after the holder deleted the key or a full
      lease has passed. */
  lemma OneWinner(cs: seq<Cluster>, steps: seq<Step>, i: nat, j: nat)
    requires IsRun(cs, steps) && i < j < |steps|
    requires steps[i].Acquire? && steps[j].Acquire? && steps[i].k == steps[j].k
    ensures cs[j].now >= cs[i].now + LEASE || exists m :: i < m < j && steps[m].LandDelete? && steps[m].k == steps[i].k
  {
    if forall m :: i < m < j && steps[m].LandDelete? ==> steps[m].k != steps[i].k {
      KeyOutlivesGrant(cs, steps, i, j);
      assert !Live(cs[j].keys, cs[j].now, steps[j].k);
    }
  }

  /** A conversation without a live key, as the failover looks for it, is not held by any node. */
  lemma NoFalseFailover(cs: seq<Cluster>, steps: seq<Step>, i: nat, sid: string)
    requires IsRun(cs, steps) && i < |cs| && cs[0] == Empty
    requires forall j :: 0 <= j <= i ==> Timely(cs[j])
    requires sid !in SidsWithKey(cs[i].keys, cs[i].now)
    ensures forall n, user :: (n, Key(user, sid)) !in cs[i].slots
  {
    MutualExclusion(cs, steps, i);
    assert forall x :: x in cs[i].slots ==> Live(cs[i].keys, cs[i].now, x.1);
    assert forall x :: x in cs[i].slots ==> x.1.sid != sid;
  }

  /** A start that fails holds the conversation for one lease and makes no node late; then any node can start it. */
  lemma FailedStartsLapse(n: Node, m: Node, k: Key)
    ensures var c := Take(Take(Take(Empty, Acquire(n, k)), Abandon(n, k)), Tick(LEASE));
            Timely(c) && c.slots == map[] && Enabled(c, Acquire(m, k))
  {
  }

  /** A delete that was sent reaches Redis even if the node crashes meanwhile. */
  lemma DeletesOutliveCrashes(c: Cluster, n: Node, k: Key)
    requires InPhase(c, n, k, Closing)
    ensures Enabled(Take(c, Crash(n)), LandDelete(n, k)) && k !in Take(Take(c, Crash(n)), LandDelete(n, k)).keys
  {
  }

  // ---- what the protocol rests on ----

  ghost predicate TwoHosts(c: Cluster, k: Key) {
    exists n, m :: n != m && InPhase(c, n, k, Hosting) && InPhase(c, m, k, Hosting)
  }

  function Started(c: Cluster, n: Node, k: Key): Cluster
    requires Enabled(c, Acquire(n, k))
  {
    Take(Take(c, Acquire(n, k)), Register(n, k))
  }

  /** A registration after the lease lapsed gives two hosts. */
  lemma LateRegistrationBreaksIt(k: Key)
    ensures var c1 := Take(Take(Empty, Acquire(1, k)), Tick(LEASE));
            && Enabled(c1, Acquire(2, k)) && Enabled(Started(c1, 2, k), Register(1, k))
            && TwoHosts(Take(Started(c1, 2, k), Register(1, k)), k)
  {
    var c1 := Take(Take(Empty, Acquire(1, k)), Tick(LEASE));
    var c := Take(Started(c1, 2, k), Register(1, k));
    assert InPhase(c, 1, k, Hosting) && InPhase(c, 2, k, Hosting);
  }

  /** So does a refresh that comes after the lease lapsed. */
  lemma LateRefreshBreaksIt(k: Key)
    ensures var c1 := Take(Started(Empty, 1, k), Tick(LEASE));
            Enabled(c1, Acquire(2, k)) && TwoHosts(Started(c1, 2, k), k)
  {
    var c := Started(Take(Started(Empty, 1, k), Tick(LEASE)), 2, k);
    assert InPhase(c, 1, k, Hosting) && InPhase(c, 2, k, Hosting);
  }

  /** A delete that lands after the lease lapsed removes the key of the next host. */
  lemma LateDeleteBreaksIt(k: Key)
    ensures var c1 := Take(Take(Started(Empty, 1, k), Pop(1, k)), Tick(LEASE));
            && Enabled(c1, Acquire(2, k))
            && Enabled(Started(c1, 2, k), LandDelete(1, k))
            && Enabled(Take(Started(c1, 2, k), LandDelete(1, k)), Acquire(3, k))
            && TwoHosts(Started(Take(Started(c1, 2, k), LandDelete(1, k)), 3, k), k)
  {
    var c1 := Take(Take(Started(Empty, 1, k), Pop(1, k)), Tick(LEASE));
    var c := Started(Take(Started(c1, 2, k), LandDelete(1, k)), 3, k);
    assert InPhase(c, 2, k, Hosting) && InPhase(c, 3, k, Hosting);
  }

  /** Deleting the key before the loop is popped would let another node start at once, with everyone timely. */
  lemma DeletingBeforePoppingBreaksIt(k: Key)
    ensures var c1 := Started(Empty, 1, k).(keys := map[]);
            Timely(c1) && Enabled(c1, Acquire(2, k)) && Timely(Started(c1, 2, k)) && TwoHosts(Started(c1, 2, k), k)
  {
    var c1 := Started(Empty, 1, k).(keys := map[]);
    var c := Started(c1, 2, k);
    assert InPhase(c, 1, k, Hosting) && InPhase(c, 2, k, Hosting);
  }

  /** Any two users naming one conversation use two keys, and both can host it. */
  lemma TwoUsersTwoHosts(sid: string, a: string, b: string)
    requires a != b
    ensures var c1 := Started(Empty, 1, Key(a, sid));
            && Enabled(c1, Acquire(2, Key(b, sid)))
            && Timely(Started(c1, 2, Key(b, sid)))
            && InPhase(Started(c1, 2, Key(b, sid)), 1, Key(a, sid), Hosting)
            && InPhase(Started(c1, 2, Key(b, sid)), 2, Key(b, sid), Hosting)
  {
    assert Key(a, sid) != Key(b, sid);
  }
}
