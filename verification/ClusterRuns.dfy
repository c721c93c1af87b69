/** Any number of nodes that share one Redis: whatever their methods are called to do, the cluster goes through a run
    of the lease protocol, so that what is proved of the protocol holds of the loops in their maps. */
module ClusterRuns {
  import opened Events
  import opened Lease
  import opened ClusterNode

  datatype NodeState = NodeState(loops: map<string, Session>, connections: map<string, string>)

  datatype State = State(keys: map<Key, nat>, now: nat, nodes: seq<NodeState>)

  /** What can be called at node n, and time. A node that crashes is replaced by a new one in its place. */
  datatype Call =
    | Start(n: nat, sid: string, session: Session)
    | Refresh(n: nat)
    | Close(n: nat, sid: string)
    | CloseIdle(n: nat, clock: int, closeDelay: int)
    | Recover(n: nat, connection: string, limit: nat, settingsFound: bool, session: Session)
    | Join(n: nat, connection: string, sid: string)
    | Replace(n: nat)
    | Pass(d: nat)

  function HostedKeys(loops: map<string, Session>): set<Key> {
    set sid | sid in loops && sid != "" :: Key(loops[sid].user, sid)
  }

  function KeysOf(loops: map<string, Session>, sids: set<string>): set<Key>
    requires sids <= loops.Keys
  {
    set sid | sid in sids :: Key(loops[sid].user, sid)
  }

  function WithLoops(s: State, n: nat, loops: map<string, Session>): State
    requires n < |s.nodes|
  {
    s.(nodes := s.nodes[n := s.nodes[n].(loops := loops)])
  }

  /** The loop is started if the key is not live. */
  function Started(s: State, n: nat, sid: string, session: Session): State
    requires n < |s.nodes|
  {
    var key := Key(session.user, sid);
    if Live(s.keys, s.now, key) then s
    else WithLoops(s, n, s.nodes[n].loops[sid := session]).(keys := Refreshed(s.keys, s.now, {key}))
  }

  function Closed(s: State, n: nat, sids: set<string>): State
    requires n < |s.nodes| && sids <= s.nodes[n].loops.Keys
  {
    WithLoops(s, n, s.nodes[n].loops - sids).(keys := s.keys - KeysOf(s.nodes[n].loops, sids))
  }

  function WithConnections(s: State, n: nat, connections: map<string, string>): State
    requires n < |s.nodes|
  {
    s.(nodes := s.nodes[n := s.nodes[n].(connections := connections)])
  }

  /** The connections of node n to a conversation are gone. */
  function Disconnected(s: State, n: nat, sid: string): State
    requires n < |s.nodes|
  {
    var connections := s.nodes[n].connections;
    WithConnections(s, n, map c | c in connections && connections[c] != sid :: connections[c])
  }

  /** Idle past the threshold and without a local connection. */
  predicate IdleAt(node: NodeState, sid: string, threshold: int) {
    && sid in node.loops && node.loops[sid].lastActive < threshold
    && node.loops[sid].state != Some(RUNNING) && node.loops[sid].state != None && sid !in node.connections.Values
  }

  function RunningFor(s: State, n: nat, user: string): set<string>
    requires n < |s.nodes|
  {
    (set sid | sid in s.nodes[n].loops && s.nodes[n].loops[sid].user == user)
    + set k | k in s.keys && Live(s.keys, s.now, k) && k.user == user :: k.sid
  }

  predicate MayRecover(s: State, call: Call)
    requires call.Recover? && call.n < |s.nodes|
  {
    var node := s.nodes[call.n];
    && call.session.user != "" && call.connection in node.connections && node.connections[call.connection] != ""
    && |RunningFor(s, call.n, call.session.user)| <= call.limit && call.settingsFound
  }

  /** What the calls do. Which of the idle sessions are closed depends on the remote connections. */
  ghost predicate Performs(s: State, s': State, call: Call) {
    match call
    case Pass(d) => s' == s.(now := s.now + d)
    case Start(n, sid, session) => s' == if n < |s.nodes| then Started(s, n, sid, session) else s
    case Refresh(n) =>
      s' == if n < |s.nodes| then s.(keys := Refreshed(s.keys, s.now, HostedKeys(s.nodes[n].loops))) else s
    case Close(n, sid) =>
      s' == if n >= |s.nodes| then s
            else if sid in s.nodes[n].loops then Disconnected(Closed(s, n, {sid}), n, sid)
            else Disconnected(s, n, sid)
    case CloseIdle(n, clock, closeDelay) =>
      if n < |s.nodes|
      then exists sids :: (forall sid :: sid in sids ==> IdleAt(s.nodes[n], sid, clock - closeDelay))
                          && sids <= s.nodes[n].loops.Keys && s' == Closed(s, n, sids)
      else s' == s
    case Recover(n, connection, _, _, session) =>
      s' == if n < |s.nodes| && MayRecover(s, call)
            then Started(s, n, s.nodes[n].connections[connection], session) else s
    case Join(n, connection, sid) =>
      s' == if n < |s.nodes| then WithConnections(s, n, s.nodes[n].connections[connection := sid]) else s
    case Replace(n) => s' == if n < |s.nodes| then s.(nodes := s.nodes[n := NodeState(map[], map[])]) else s
  }

  ghost predicate IsCallRun(ss: seq<State>, calls: seq<Call>) {
    && |ss| == |calls| + 1
    && ss[0].keys == map[] && ss[0].now == 0
    && (forall n :: 0 <= n < |ss[0].nodes| ==> ss[0].nodes[n].loops == map[])
    && forall i :: 0 <= i < |calls| ==> Performs(ss[i], ss[i + 1], calls[i])
  }

  // ---- the run of the protocol behind it ----

  predicate Hosts(s: State, n: Node, k: Key) {
    0 <= n < |s.nodes| && k.sid in s.nodes[n].loops && s.nodes[n].loops[k.sid].user == k.user
  }

  /** For each loop of each node, when a call of that node last wrote its key. */
  type Writes = map<(Node, Key), nat>

  function AtNode(n: Node, ks: set<Key>): set<(Node, Key)> {
    set k | k in ks :: (n, k)
  }

  function WrittenByStart(s: State, n: nat, sid: string, session: Session): set<(Node, Key)> {
    var key := Key(session.user, sid);
    if Live(s.keys, s.now, key) then {} else {(n, key)}
  }

  /** The keys that a call writes for its node: of a loop that it starts, or of the loops that it refreshes. */
  function WrittenBy(s: State, call: Call): set<(Node, Key)> {
    match call
    case Start(n, sid, session) => if n < |s.nodes| then WrittenByStart(s, n, sid, session) else {}
    case Recover(n, connection, _, _, session) =>
      if n < |s.nodes| && MayRecover(s, call)
      then WrittenByStart(s, n, s.nodes[n].connections[connection], session) else {}
    case Refresh(n) => if n < |s.nodes| then AtNode(n, HostedKeys(s.nodes[n].loops)) else {}
    case _ => {}
  }

  function WrittenAfter(w: Writes, s: State, call: Call, s': State): Writes {
    map x | x in w.Keys + WrittenBy(s, call) && Hosts(s', x.0, x.1) :: if x in WrittenBy(s, call) then s.now else w[x]
  }

  /** The times before call j. */
  function Written(ss: seq<State>, calls: seq<Call>, j: nat): Writes
    requires j <= |calls| < |ss|
  {
    if j == 0 then map[]
    else WrittenAfter(Written(ss, calls, j - 1), ss[j - 1], calls[j - 1], ss[j])
  }

  /** The timing assumption on the calls: before call j, no node hosts a conversation whose key it has not written
      itself for a whole lease. */
  predicate TimelyAt(ss: seq<State>, calls: seq<Call>, j: nat)
    requires j <= |calls| < |ss|
  {
    var w := Written(ss, calls, j);
    forall x :: x in w ==> ss[j].now < w[x] + LEASE
  }

  ghost predicate Covers(w: Writes, s: State) {
    forall n, k :: (n, k) in w <==> Hosts(s, n, k)
  }

  function Slots(w: Writes): map<(Node, Key), Slot> {
    map x | x in w :: Slot(Hosting, w[x])
  }

  /** The protocol has the same keys and time, and its slots are exactly the loops of the nodes, each written when
      the calls wrote it. */
  ghost predicate Shows(c: Cluster, s: State, w: Writes) {
    c.keys == s.keys && c.now == s.now && c.slots == Slots(w) && Covers(w, s)
  }

  datatype History = History(cs: seq<Cluster>, steps: seq<Step>)

  /** A run of the protocol from its start. */
  ghost predicate IsHistory(h: History) {
    h.cs != [] && IsRun(h.cs, h.steps) && h.cs[0] == Empty
  }

  function Last(h: History): Cluster
    requires h.cs != []
  {
    h.cs[|h.cs| - 1]
  }

  /** The history goes on without any node becoming late. */
  ghost predicate Extends(h: History, r: History)
    requires h.cs != []
  {
    && IsHistory(r) && h.cs <= r.cs
    && (Timely(Last(h)) ==> forall i :: |h.cs| <= i < |r.cs| ==> Timely(r.cs[i]))
  }

  ghost function Then(h: History, step: Step): (r: History)
    requires IsHistory(h) && Enabled(Last(h), step)
    ensures IsHistory(r) && h.cs <= r.cs && |r.cs| == |h.cs| + 1 && Last(r) == Take(Last(h), step)
    ensures !step.Tick? ==> Extends(h, r)
  {
    var r := History(h.cs + [Take(Last(h), step)], h.steps + [step]);
    assert !step.Tick? && Timely(Last(h)) ==> Timely(Last(r)) by {
      if !step.Tick? && Timely(Last(h)) {
        StepStaysTimely(Last(h), step);
      }
    }
    r
  }

  lemma ExtendsFurther(h: History, r: History, q: History)
    requires h.cs != [] && Extends(h, r) && Extends(r, q)
    ensures Extends(h, q)
  {
    hide IsHistory, Timely;
    assert Timely(Last(h)) ==> Timely(Last(r));
    assert forall i :: 0 <= i < |r.cs| ==> q.cs[i] == r.cs[i];
  }

  ghost function ThenBoth(h: History, a: Step, b: Step): (r: History)
    requires IsHistory(h) && Enabled(Last(h), a) && Enabled(Take(Last(h), a), b) && !a.Tick? && !b.Tick?
    ensures Extends(h, r) && Last(r) == Take(Take(Last(h), a), b)
  {
    ExtendsFurther(h, Then(h, a), Then(Then(h, a), b));
    Then(Then(h, a), b)
  }

  lemma DropFollows(h: History, s: State, w: Writes, n: nat, sid: string) returns (r: History)
    requires IsHistory(h) && Shows(Last(h), s, w) && n < |s.nodes| && sid in s.nodes[n].loops
    ensures Extends(h, r)
    ensures var key := Key(s.nodes[n].loops[sid].user, sid);
            Shows(Last(r), WithLoops(s, n, s.nodes[n].loops - {sid}), w - {(n, key)})
  {
    var key := Key(s.nodes[n].loops[sid].user, sid);
    assert Hosts(s, n, key);
    hide IsRun, Timely;
    r := ThenBoth(h, Pop(n, key), LoseDelete(n, key));
    hide Extends, IsHistory;
    assert Last(r).slots == Slots(w - {(n, key)});
    var s' := WithLoops(s, n, s.nodes[n].loops - {sid});
    forall m, k ensures (m, k) in w - {(n, key)} <==> Hosts(s', m, k) {
    }
  }

  lemma CloseFollows(h: History, s: State, w: Writes, n: nat, sid: string) returns (r: History)
    requires IsHistory(h) && Shows(Last(h), s, w) && n < |s.nodes| && sid in s.nodes[n].loops
    ensures Extends(h, r)
    ensures Shows(Last(r), Closed(s, n, {sid}), w - {(n, Key(s.nodes[n].loops[sid].user, sid))})
  {
    var key := Key(s.nodes[n].loops[sid].user, sid);
    assert Hosts(s, n, key);
    hide IsRun, Timely;
    r := ThenBoth(h, Pop(n, key), LandDelete(n, key));
    hide Extends, IsHistory;
    assert Last(r).slots == Slots(w - {(n, key)});
    var s' := Closed(s, n, {sid});
    assert KeysOf(s.nodes[n].loops, {sid}) == {key};
    forall m, k ensures (m, k) in w - {(n, key)} <==> Hosts(s', m, k) {
    }
  }

  /** Of the new times, those of the keys written are new, and all others are as they were. */
  predicate Times(now: nat, written: set<(Node, Key)>, w: Writes, w': Writes) {
    forall x :: x in w' ==> if x in written then w'[x] == now else x in w && w'[x] == w[x]
  }

  lemma {:induction false} CloseAllFollows(h: History, s: State, w: Writes, n: nat, sids: set<string>)
    returns (r: History, w': Writes)
    requires IsHistory(h) && Shows(Last(h), s, w) && n < |s.nodes| && sids <= s.nodes[n].loops.Keys
    ensures Extends(h, r) && Shows(Last(r), Closed(s, n, sids), w') && Times(s.now, {}, w, w')
    decreases |sids|
  {
    if sids == {} {
      r, w' := h, w;
      var node := s.nodes[n];
      assert node.loops - sids == node.loops && KeysOf(node.loops, sids) == {} && s.nodes[n := node] == s.nodes;
    } else {
      var sid :| sid in sids;
      var r1 := CloseFollows(h, s, w, n, sid);
      hide Shows;
      var w1 := w - {(n, Key(s.nodes[n].loops[sid].user, sid))};
      r, w' := CloseAllFollows(r1, Closed(s, n, {sid}), w1, n, sids - {sid});
      ClosedInTurn(s, n, sid, sids);
      ExtendsFurther(h, r1, r);
    }
  }

  lemma ClosedInTurn(s: State, n: nat, sid: string, sids: set<string>)
    requires n < |s.nodes| && sid in sids && sids <= s.nodes[n].loops.Keys
    ensures Closed(Closed(s, n, {sid}), n, sids - {sid}) == Closed(s, n, sids)
  {
    var loops := s.nodes[n].loops;
    assert loops - {sid} - (sids - {sid}) == loops - sids;
    assert KeysOf(loops, {sid}) + KeysOf(loops - {sid}, sids - {sid}) == KeysOf(loops, sids);
  }

  lemma FirstStartFollows(h: History, s: State, w: Writes, n: nat, sid: string, session: Session) returns (r: History)
    requires IsHistory(h) && Shows(Last(h), s, w) && n < |s.nodes|
    requires sid !in s.nodes[n].loops && !Live(s.keys, s.now, Key(session.user, sid))
    ensures Extends(h, r)
    ensures Shows(Last(r), Started(s, n, sid, session), w[(n, Key(session.user, sid)) := s.now])
  {
    var key := Key(session.user, sid);
    hide IsRun, Timely;
    r := ThenBoth(h, Acquire(n, key), Register(n, key));
    hide Extends, IsHistory;
    assert Last(r).slots == Slots(w[(n, key) := s.now]);
    var s' := Started(s, n, sid, session);
    forall m, k ensures (m, k) in w[(n, key) := s.now] <==> Hosts(s', m, k) {
    }
  }

  /** A loop that is started while the map still holds one of that conversation takes its place. */
  lemma StartFollows(h: History, s: State, w: Writes, n: nat, sid: string, session: Session)
    returns (r: History, w': Writes)
    requires IsHistory(h) && Shows(Last(h), s, w) && n < |s.nodes|
    ensures Extends(h, r) && Shows(Last(r), Started(s, n, sid, session), w')
    ensures Times(s.now, WrittenByStart(s, n, sid, session), w, w')
  {
    hide Shows;
    var key := Key(session.user, sid);
    if Live(s.keys, s.now, key) {
      r, w' := h, w;
    } else if sid in s.nodes[n].loops {
      var s1 := WithLoops(s, n, s.nodes[n].loops - {sid});
      var w1 := w - {(n, Key(s.nodes[n].loops[sid].user, sid))};
      var r1 := DropFollows(h, s, w, n, sid);
      r := FirstStartFollows(r1, s1, w1, n, sid, session);
      w' := w1[(n, key) := s.now];
      ExtendsFurther(h, r1, r);
      assert (s.nodes[n].loops - {sid})[sid := session] == s.nodes[n].loops[sid := session];
      assert Started(s1, n, sid, session) == Started(s, n, sid, session);
    } else {
      r := FirstStartFollows(h, s, w, n, sid, session);
      w' := w[(n, key) := s.now];
    }
  }

  lemma HostedKeysAreBuilt(h: History, s: State, w: Writes, n: nat)
    requires IsHistory(h) && Shows(Last(h), s, w) && n < |s.nodes|
    ensures forall k :: k in HostedKeys(s.nodes[n].loops) ==> (n, k) in Last(h).built
  {
    HostedKeysMayBeRefreshed(h.cs, h.steps, |h.cs| - 1);
    forall k | k in HostedKeys(s.nodes[n].loops) ensures (n, k) in Last(h).built {
      assert Hosts(s, n, k);
      assert InPhase(Last(h), n, k, Hosting);
    }
  }

  lemma RefreshFollows(h: History, s: State, w: Writes, n: nat) returns (r: History, w': Writes)
    requires IsHistory(h) && Shows(Last(h), s, w) && n < |s.nodes|
    ensures Extends(h, r) && Shows(Last(r), s.(keys := Refreshed(s.keys, s.now, HostedKeys(s.nodes[n].loops))), w')
    ensures Times(s.now, AtNode(n, HostedKeys(s.nodes[n].loops)), w, w')
  {
    var ks := HostedKeys(s.nodes[n].loops);
    HostedKeysAreBuilt(h, s, w, n);
    hide IsRun, Timely;
    r := Then(h, LandRefresh(n, ks));
    w' := RefreshedWrites(w, n, ks, s.now);
    RefreshedSlots(Last(h), w, n, ks);
    hide Extends, IsHistory, HostedKeys, Slots, Refreshed, AtNode;
    var s' := s.(keys := Refreshed(s.keys, s.now, ks));
    forall m, k ensures (m, k) in w' <==> Hosts(s', m, k) {
      assert Hosts(s', m, k) <==> Hosts(s, m, k);
    }
  }

  function RefreshedWrites(w: Writes, n: Node, ks: set<Key>, now: nat): Writes {
    map x | x in w :: if x.0 == n && x.1 in ks then now else w[x]
  }

  lemma RefreshedSlots(c: Cluster, w: Writes, n: Node, ks: set<Key>)
    requires c.slots == Slots(w) && Enabled(c, LandRefresh(n, ks))
    ensures Take(c, LandRefresh(n, ks)).slots == Slots(RefreshedWrites(w, n, ks, c.now))
    ensures Times(c.now, AtNode(n, ks), w, RefreshedWrites(w, n, ks, c.now))
  {
    hide Refreshed;
    forall x | x in w ensures x in AtNode(n, ks) <==> x.0 == n && x.1 in ks {
    }
  }

  lemma ReplaceFollows(h: History, s: State, w: Writes, n: nat) returns (r: History, w': Writes)
    requires IsHistory(h) && Shows(Last(h), s, w) && n < |s.nodes|
    ensures Extends(h, r) && Times(s.now, {}, w, w')
    ensures Shows(Last(r), s.(nodes := s.nodes[n := NodeState(map[], map[])]), w')
  {
    hide IsRun, Timely;
    r := Then(h, Crash(n));
    hide Extends, IsHistory;
    w' := map x | x in w && x.0 != n :: w[x];
    assert Last(r).slots == Slots(w');
    var s' := s.(nodes := s.nodes[n := NodeState(map[], map[])]);
    forall m, k ensures (m, k) in w' <==> Hosts(s', m, k) {
    }
  }

  /** The protocol does not look at connections. */
  lemma ConnectionsDoNotShow(c: Cluster, s: State, w: Writes, n: nat, connections: map<string, string>)
    requires Shows(c, s, w) && n < |s.nodes|
    ensures Shows(c, WithConnections(s, n, connections), w)
  {
    forall m, k ensures (m, k) in w <==> Hosts(WithConnections(s, n, connections), m, k) {
      assert Hosts(WithConnections(s, n, connections), m, k) <==> Hosts(s, m, k);
    }
  }

  lemma CloseCallFollows(h: History, s: State, w: Writes, n: nat, sid: string) returns (r: History, w': Writes)
    requires IsHistory(h) && Shows(Last(h), s, w) && n < |s.nodes|
    ensures Extends(h, r) && Times(s.now, {}, w, w')
    ensures Shows(Last(r), Disconnected(if sid in s.nodes[n].loops then Closed(s, n, {sid}) else s, n, sid), w')
  {
    hide Shows, IsRun, WithConnections;
    r, w' := h, w;
    var t := s;
    if sid in s.nodes[n].loops {
      r := CloseFollows(h, s, w, n, sid);
      w' := w - {(n, Key(s.nodes[n].loops[sid].user, sid))};
      t := Closed(s, n, {sid});
    }
    var connections := t.nodes[n].connections;
    ConnectionsDoNotShow(Last(r), t, w', n, map c | c in connections && connections[c] != sid :: connections[c]);
  }

  /** The history goes on, and no node was late before the state it reaches if none was when it went on. */
  ghost predicate Reaches(h: History, r: History)
    requires h.cs != []
  {
    && IsHistory(r) && h.cs <= r.cs
    && (Timely(Last(h)) ==> forall i :: |h.cs| <= i < |r.cs| - 1 ==> Timely(r.cs[i]))
  }

  lemma ExtendsReaches(h: History, r: History)
    requires IsHistory(h) && Extends(h, r)
    ensures Reaches(h, r)
  {
  }

  lemma PassFollows(h: History, s: State, w: Writes, d: nat) returns (r: History)
    requires IsHistory(h) && Shows(Last(h), s, w)
    ensures Reaches(h, r) && Shows(Last(r), s.(now := s.now + d), w)
  {
    r := Then(h, Tick(d));
    assert forall n, k :: Hosts(s.(now := s.now + d), n, k) <==> Hosts(s, n, k);
  }

  /** What the lemmas above say of the times is what WrittenAfter computes. */
  lemma TimesAreWritten(w: Writes, s: State, call: Call, s': State, w': Writes)
    requires Covers(w', s')
    requires Times(s.now, WrittenBy(s, call), w, w')
    ensures w' == WrittenAfter(w, s, call, s')
  {
    hide WrittenBy, Hosts;
    var after := WrittenAfter(w, s, call, s');
    forall x ensures x in w' <==> x in after {
      assert x == (x.0, x.1);
    }
  }

  /** Every call is a number of steps of the protocol. */
  lemma CallFollows(h: History, s: State, w: Writes, s': State, call: Call) returns (r: History)
    requires IsHistory(h) && Shows(Last(h), s, w) && Performs(s, s', call)
    ensures Reaches(h, r) && Shows(Last(r), s', WrittenAfter(w, s, call, s'))
  {
    var w';
    r, w' := CallSteps(h, s, w, s', call);
    TimesAreWritten(w, s, call, s', w');
  }

  lemma CallSteps(h: History, s: State, w: Writes, s': State, call: Call) returns (r: History, w': Writes)
    requires IsHistory(h) && Shows(Last(h), s, w) && Performs(s, s', call)
    ensures Reaches(h, r) && Shows(Last(r), s', w')
    ensures Times(s.now, WrittenBy(s, call), w, w')
  {
    r, w' := h, w;
    if call.Pass? {
      r := PassFollows(h, s, w, call.d);
    } else {
      r, w' := NodeSteps(h, s, w, s', call);
      ExtendsReaches(h, r);
    }
  }

  lemma NodeSteps(h: History, s: State, w: Writes, s': State, call: Call) returns (r: History, w': Writes)
    requires IsHistory(h) && Shows(Last(h), s, w) && Performs(s, s', call) && !call.Pass?
    ensures Extends(h, r) && Shows(Last(r), s', w')
    ensures Times(s.now, WrittenBy(s, call), w, w')
  {
    r, w' := h, w;
    assert Times(s.now, {}, w, w) && Extends(h, h);
    hide Shows, IsHistory, Extends, Timely, Times, Started, Closed, WithLoops, WithConnections, Disconnected, Refreshed,
      WrittenByStart, MayRecover, HostedKeys, AtNode, Live, Covers, Slots, IdleAt;
    match call
    case Start(n, sid, session) =>
      if n < |s.nodes| { r, w' := StartFollows(h, s, w, n, sid, session); }
    case Refresh(n) =>
      if n < |s.nodes| { r, w' := RefreshFollows(h, s, w, n); }
    case Close(n, sid) =>
      if n < |s.nodes| { r, w' := CloseCallFollows(h, s, w, n, sid); }
    case CloseIdle(n, _, _) =>
      if n < |s.nodes| {
        var sids :| sids <= s.nodes[n].loops.Keys && s' == Closed(s, n, sids);
        r, w' := CloseAllFollows(h, s, w, n, sids);
      }
    case Recover(n, connection, _, _, session) =>
      if n < |s.nodes| && MayRecover(s, call) {
        r, w' := StartFollows(h, s, w, n, s.nodes[n].connections[connection], session);
      }
    case Join(n, connection, sid) =>
      if n < |s.nodes| { ConnectionsDoNotShow(Last(h), s, w, n, s.nodes[n].connections[connection := sid]); }
    case Replace(n) =>
      if n < |s.nodes| { r, w' := ReplaceFollows(h, s, w, n); }
  }

  /** The history stands at position at[j] when the state before call j is reached, and ends with state k. */
  ghost predicate Passes(h: History, at: seq<nat>, ss: seq<State>, calls: seq<Call>, k: nat)
    requires k <= |calls| < |ss|
  {
    && |at| == k + 1 && at[k] == |h.cs| - 1
    && (forall i, j :: 0 <= i <= j <= k ==> at[i] <= at[j])
    && (forall j :: 0 <= j <= k ==> at[j] < |h.cs| && Shows(h.cs[at[j]], ss[j], Written(ss, calls, j)))
  }

  /** If the calls are timely, so is the history. */
  ghost predicate OnTime(h: History, ss: seq<State>, calls: seq<Call>, k: nat)
    requires k <= |calls| < |ss|
  {
    (forall j :: 0 <= j < k ==> TimelyAt(ss, calls, j)) ==> forall i :: 0 <= i < |h.cs| - 1 ==> Timely(h.cs[i])
  }

  lemma ShownTimely(c: Cluster, ss: seq<State>, calls: seq<Call>, j: nat)
    requires j <= |calls| < |ss| && Shows(c, ss[j], Written(ss, calls, j))
    ensures Timely(c) <==> TimelyAt(ss, calls, j)
  {
    hide Written;
    var w := Written(ss, calls, j);
    assert forall x :: x in w <==> x in c.slots;
    assert forall x :: x in w ==> c.slots[x].writtenAt == w[x];
  }

  lemma OneMoreCallPasses(h: History, at: seq<nat>, ss: seq<State>, calls: seq<Call>, k: nat, r: History)
    requires k < |calls| < |ss| && Passes(h, at, ss, calls, k) && h.cs != [] && Reaches(h, r)
    requires Shows(Last(r), ss[k + 1], Written(ss, calls, k + 1))
    ensures r.cs != [] && Passes(r, at + [|r.cs| - 1], ss, calls, k + 1)
  {
    hide Shows, Written, IsRun, Timely;
    assert forall j :: 0 <= j <= k ==> r.cs[at[j]] == h.cs[at[j]];
  }

  lemma OneMoreCallOnTime(h: History, ss: seq<State>, calls: seq<Call>, k: nat, r: History)
    requires k < |calls| < |ss| && h.cs != [] && Reaches(h, r) && OnTime(h, ss, calls, k)
    requires Shows(Last(h), ss[k], Written(ss, calls, k))
    ensures IsHistory(r) && OnTime(r, ss, calls, k + 1)
  {
    ShownTimely(Last(h), ss, calls, k);
    hide Shows, Written, TimelyAt, Timely, IsHistory;
    if forall j :: 0 <= j < k + 1 ==> TimelyAt(ss, calls, j) {
      assert forall j :: 0 <= j < k ==> TimelyAt(ss, calls, j);
      forall i | 0 <= i < |r.cs| - 1 ensures Timely(r.cs[i]) {
        if i < |h.cs| {
          assert r.cs[i] == h.cs[i];
        }
      }
    }
  }

  lemma CallAt(ss: seq<State>, calls: seq<Call>, k: nat)
    requires IsCallRun(ss, calls) && k < |calls|
    ensures |calls| < |ss| && Performs(ss[k], ss[k + 1], calls[k])
    ensures Written(ss, calls, k + 1) == WrittenAfter(Written(ss, calls, k), ss[k], calls[k], ss[k + 1])
  {
    hide Performs, WrittenAfter;
  }

  lemma PassesLast(h: History, at: seq<nat>, ss: seq<State>, calls: seq<Call>, k: nat)
    requires k <= |calls| < |ss| && Passes(h, at, ss, calls, k)
    ensures h.cs != [] && Shows(Last(h), ss[k], Written(ss, calls, k))
  {
    hide Shows, Written;
  }

  /** A run of the protocol that passes through all states of the calls, and is timely if they are. */
  ghost predicate Simulates(h: History, at: seq<nat>, ss: seq<State>, calls: seq<Call>, k: nat)
    requires k <= |calls| < |ss|
  {
    IsHistory(h) && Passes(h, at, ss, calls, k) && OnTime(h, ss, calls, k)
  }

  lemma NothingCalledYet(ss: seq<State>, calls: seq<Call>)
    requires IsCallRun(ss, calls)
    ensures |calls| < |ss| && Simulates(History([Empty], []), [0], ss, calls, 0)
  {
    assert forall n, key :: !Hosts(ss[0], n, key);
    assert Slots(map[]) == map[];
  }

  lemma SimulatesMeans(h: History, at: seq<nat>, ss: seq<State>, calls: seq<Call>, k: nat)
    requires k <= |calls| < |ss|
    ensures Simulates(h, at, ss, calls, k) <==>
            IsHistory(h) && Passes(h, at, ss, calls, k) && OnTime(h, ss, calls, k)
  {
    hide IsHistory, Passes, OnTime;
  }

  lemma NextCallSimulates(h: History, at: seq<nat>, ss: seq<State>, calls: seq<Call>, k: nat)
    returns (r: History, at': seq<nat>)
    requires k < |calls| < |ss| && IsCallRun(ss, calls) && Simulates(h, at, ss, calls, k)
    ensures Simulates(r, at', ss, calls, k + 1)
  {
    hide *;
    SimulatesMeans(h, at, ss, calls, k);
    CallAt(ss, calls, k);
    PassesLast(h, at, ss, calls, k);
    r := CallFollows(h, ss[k], Written(ss, calls, k), ss[k + 1], calls[k]);
    OneMoreCallPasses(h, at, ss, calls, k, r);
    OneMoreCallOnTime(h, ss, calls, k, r);
    at' := at + [|r.cs| - 1];
    SimulatesMeans(r, at', ss, calls, k + 1);
  }

  /** A whole sequence of calls is one run of the protocol that passes through all its states. */
  lemma {:induction false} CallsFollowTheProtocol(ss: seq<State>, calls: seq<Call>, k: nat)
    returns (h: History, at: seq<nat>)
    requires IsCallRun(ss, calls) && k <= |calls|
    ensures Simulates(h, at, ss, calls, k)
  {
    hide *;
    NothingCalledYet(ss, calls);
    if k == 0 {
      return History([Empty], []), [0];
    }
    h, at := CallsFollowTheProtocol(ss, calls, k - 1);
    h, at := NextCallSimulates(h, at, ss, calls, k - 1);
  }

  /** Mutual exclusion of the nodes: if before every call the nodes were timely, no two of them have a conversation
      of one user in their maps, and the key of every loop lasts for a lease from the time the node wrote it. */
  lemma NodesExclude(ss: seq<State>, calls: seq<Call>, k: nat)
    requires IsCallRun(ss, calls) && k <= |calls| && forall j :: 0 <= j < k ==> TimelyAt(ss, calls, j)
    ensures forall n, m, key :: Hosts(ss[k], n, key) && Hosts(ss[k], m, key) ==> n == m
    ensures forall n, key :: Hosts(ss[k], n, key) ==>
              && (n, key) in Written(ss, calls, k) && key in ss[k].keys
              && ss[k].keys[key] >= Written(ss, calls, k)[(n, key)] + LEASE
  {
    var h, at := CallsFollowTheProtocol(ss, calls, k);
    PassesLast(h, at, ss, calls, k);
    OnTimeMeans(h, ss, calls, k);
    hide Written, Shows, IsRun, Passes, TimelyAt, Timely, Leased, Hosts, Performs, OnTime;
    MutualExclusion(h.cs, h.steps, |h.cs| - 1);
    ShownLeased(Last(h), ss[k], Written(ss, calls, k));
  }

  lemma OnTimeMeans(h: History, ss: seq<State>, calls: seq<Call>, k: nat)
    requires k <= |calls| < |ss| && OnTime(h, ss, calls, k) && forall j :: 0 <= j < k ==> TimelyAt(ss, calls, j)
    ensures forall i :: 0 <= i < |h.cs| - 1 ==> Timely(h.cs[i])
  {
  }

  lemma ShownLeased(c: Cluster, s: State, w: Writes)
    requires Shows(c, s, w) && Leased(c)
    ensures forall n, m, key :: Hosts(s, n, key) && Hosts(s, m, key) ==> n == m
    ensures forall n, key :: Hosts(s, n, key) ==> (n, key) in w && key in s.keys && s.keys[key] >= w[(n, key)] + LEASE
  {
    forall n, m, key | Hosts(s, n, key) && Hosts(s, m, key) ensures n == m {
      assert (n, key) in c.slots && (m, key) in c.slots && (n, key).1 == (m, key).1;
    }
    forall n, key | Hosts(s, n, key)
      ensures (n, key) in w && key in s.keys && s.keys[key] >= w[(n, key)] + LEASE
    {
      assert (n, key) in c.slots && (n, key).1 == key;
    }
  }

  /** And if they are timely now, each of these keys is live. */
  lemma HostedKeysAreLive(ss: seq<State>, calls: seq<Call>, k: nat)
    requires IsCallRun(ss, calls) && k <= |calls| && forall j :: 0 <= j <= k ==> TimelyAt(ss, calls, j)
    ensures forall n, key :: Hosts(ss[k], n, key) ==> key.sid in SidsWithKey(ss[k].keys, ss[k].now)
  {
    NodesExclude(ss, calls, k);
    hide Written;
    assert TimelyAt(ss, calls, k);
    forall n, key | Hosts(ss[k], n, key) ensures key.sid in SidsWithKey(ss[k].keys, ss[k].now) {
      assert (n, key) in Written(ss, calls, k);
      assert Live(ss[k].keys, ss[k].now, key);
    }
  }

  /** The connections of a node that its failover picks. */
  function Stopped(s: State, n: nat): set<string>
    requires n < |s.nodes|
  {
    var node := s.nodes[n];
    set c | c in node.connections && node.connections[c] !in node.loops
            && node.connections[c] !in SidsWithKey(s.keys, s.now)
  }

  /** No false failover: while the nodes are timely, a connection so picked names a conversation that no node
      hosts, for whatever user. */
  lemma PickedIsHostedNowhere(ss: seq<State>, calls: seq<Call>, k: nat, n: nat, connection: string)
    requires IsCallRun(ss, calls) && k <= |calls| && forall j :: 0 <= j <= k ==> TimelyAt(ss, calls, j)
    requires n < |ss[k].nodes| && connection in Stopped(ss[k], n)
    ensures forall m, user :: !Hosts(ss[k], m, Key(user, ss[k].nodes[n].connections[connection]))
  {
    HostedKeysAreLive(ss, calls, k);
  }

  // ---- the classes ----

  ghost predicate Distinct(managers: seq<ConversationManager>, redis: Redis)
    reads managers
  {
    && (forall i :: 0 <= i < |managers| ==> managers[i].redis == redis)
    && forall i, j :: 0 <= i < j < |managers| ==> managers[i] != managers[j]
  }

  ghost predicate Depicts(s: State, redis: Redis, managers: seq<ConversationManager>)
    reads redis, managers
  {
    && s.keys == redis.keys && s.now == redis.now && |s.nodes| == |managers|
    && forall i :: 0 <= i < |managers| ==> s.nodes[i] == NodeState(managers[i].loops, managers[i].connections)
  }

  method StartAt(redis: Redis, managers: seq<ConversationManager>, n: nat, sid: string, session: Session,
                 ghost s: State)
    requires Distinct(managers, redis) && n < |managers| && Depicts(s, redis, managers)
    modifies redis, managers[n]
    ensures Depicts(Started(s, n, sid, session), redis, managers)
  {
    var _ := managers[n].MaybeStartAgentLoop(sid, session.user, session);
  }

  method RefreshAt(redis: Redis, managers: seq<ConversationManager>, n: nat, ghost s: State)
    requires Distinct(managers, redis) && n < |managers| && Depicts(s, redis, managers)
    modifies redis, managers[n]
    ensures Depicts(s.(keys := Refreshed(s.keys, s.now, HostedKeys(s.nodes[n].loops))), redis, managers)
  {
    managers[n].UpdateStateInRedis();
  }

  method CloseAt(redis: Redis, managers: seq<ConversationManager>, n: nat, sid: string, ghost s: State)
    returns (ghost s': State)
    requires Distinct(managers, redis) && n < |managers| && Depicts(s, redis, managers)
    modifies redis, managers[n]
    ensures Depicts(s', redis, managers) && Performs(s, s', Close(n, sid))
  {
    if sid in managers[n].loops {
      assert KeysOf(managers[n].loops, {sid}) == {Key(managers[n].loops[sid].user, sid)};
      s' := Disconnected(Closed(s, n, {sid}), n, sid);
    } else {
      assert managers[n].loops - {sid} == managers[n].loops;
      s' := Disconnected(s, n, sid);
    }
    managers[n].CloseSession(sid);
  }

  method CloseIdleAt(redis: Redis, managers: seq<ConversationManager>, n: nat, clock: int, closeDelay: int,
                     ghost s: State)
    returns (ghost s': State)
    requires Distinct(managers, redis) && n < |managers| && Depicts(s, redis, managers)
    modifies redis, managers[n]
    ensures Depicts(s', redis, managers) && Performs(s, s', CloseIdle(n, clock, closeDelay))
  {
    hide IsConnectionScan, Unconnected, AllOwnConnections;
    ghost var idle := managers[n].IdleAlone(clock - closeDelay);
    assert forall sid :: sid in idle ==> IdleAt(s.nodes[n], sid, clock - closeDelay);
    var closed, _ := managers[n].CloseDisconnected(clock, closeDelay);
    assert closed <= s.nodes[n].loops.Keys;
    s' := Closed(s, n, closed);
  }

  method RecoverAt(redis: Redis, managers: seq<ConversationManager>, n: nat, call: Call, ghost s: State)
    returns (ghost s': State)
    requires Distinct(managers, redis) && n < |managers| && call.Recover? && call.n == n && Depicts(s, redis, managers)
    modifies redis, managers[n]
    ensures Depicts(s', redis, managers) && Performs(s, s', call)
  {
    assert managers[n].RunningFor(call.session.user) == RunningFor(s, n, call.session.user);
    s' := if MayRecover(s, call) then Started(s, n, s.nodes[n].connections[call.connection], call.session) else s;
    var r := managers[n].HandleRemoteConversationStopped(call.session.user, call.connection, call.limit,
                                                         call.settingsFound, call.session);
  }

  method JoinAt(redis: Redis, managers: seq<ConversationManager>, n: nat, connection: string, sid: string,
                ghost s: State)
    requires Distinct(managers, redis) && n < |managers| && Depicts(s, redis, managers)
    modifies managers[n]
    ensures Depicts(WithConnections(s, n, s.nodes[n].connections[connection := sid]), redis, managers)
  {
    managers[n].JoinConversation(connection, sid);
  }

  /** The class picks just these connections. */
  method PickStopped(redis: Redis, managers: seq<ConversationManager>, n: nat, ghost s: State)
    returns (stopped: set<string>)
    requires Distinct(managers, redis) && n < |managers| && Depicts(s, redis, managers)
    ensures stopped == Stopped(s, n)
  {
    stopped := managers[n].DisconnectFromStopped();
  }

  /** One call on the classes does exactly what the run theorems take it to do. */
  method Perform(redis: Redis, managers: seq<ConversationManager>, call: Call, ghost s: State)
    returns (after: seq<ConversationManager>, ghost s': State)
    requires Distinct(managers, redis) && Depicts(s, redis, managers)
    modifies redis, managers
    ensures Distinct(after, redis) && |after| == |managers|
    ensures forall i :: 0 <= i < |after| ==> after[i] in managers || fresh(after[i])
    ensures Depicts(s', redis, after) && Performs(s, s', call)
  {
    hide Started, Closed, WithLoops, WithConnections, Disconnected, MayRecover;
    after, s' := managers, s;
    match call
    case Pass(d) =>
      redis.Pass(d);
      s' := s.(now := s.now + d);
    case Start(n, sid, session) =>
      if n < |managers| {
        StartAt(redis, managers, n, sid, session, s);
        s' := Started(s, n, sid, session);
      }
    case Refresh(n) =>
      if n < |managers| {
        RefreshAt(redis, managers, n, s);
        s' := s.(keys := Refreshed(s.keys, s.now, HostedKeys(s.nodes[n].loops)));
      }
    case Close(n, sid) => if n < |managers| { s' := CloseAt(redis, managers, n, sid, s); }
    case CloseIdle(n, clock, closeDelay) =>
      if n < |managers| { s' := CloseIdleAt(redis, managers, n, clock, closeDelay, s); }
    case Recover(n, _, _, _, _) => if n < |managers| { s' := RecoverAt(redis, managers, n, call, s); }
    case Join(n, connection, sid) =>
      if n < |managers| {
        JoinAt(redis, managers, n, connection, sid, s);
        s' := WithConnections(s, n, s.nodes[n].connections[connection := sid]);
      }
    case Replace(n) =>
      if n < |managers| {
        var node := new ConversationManager(redis);
        after := managers[n := node];
        s' := s.(nodes := s.nodes[n := NodeState(map[], map[])]);
      }
  }

  method NewCluster(nodes: nat) returns (redis: Redis, managers: seq<ConversationManager>, ghost s: State)
    ensures |managers| == nodes && Distinct(managers, redis) && Depicts(s, redis, managers) && IsCallRun([s], [])
    ensures fresh(redis) && forall i :: 0 <= i < |managers| ==> fresh(managers[i])
  {
    redis := new Redis();
    managers := [];
    s := State(map[], 0, []);
    while |managers| < nodes
      invariant |managers| <= nodes && Distinct(managers, redis) && fresh(redis) && Depicts(s, redis, managers)
      invariant s.keys == map[] && s.now == 0 && forall i :: 0 <= i < |managers| ==> s.nodes[i].loops == map[]
      invariant forall i :: 0 <= i < |managers| ==> fresh(managers[i])
    {
      var node := new ConversationManager(redis);
      managers := managers + [node];
      s := s.(nodes := s.nodes + [NodeState(map[], map[])]);
    }
  }

  lemma OneMoreCall(ss: seq<State>, calls: seq<Call>, i: nat, s: State)
    requires i < |calls| && IsCallRun(ss, calls[..i]) && Performs(ss[i], s, calls[i])
    ensures IsCallRun(ss + [s], calls[..i + 1])
  {
    hide Performs;
  }

  /** A cluster from its start through any calls: its states are such a run. */
  method RunCluster(nodes: nat, calls: seq<Call>)
    returns (redis: Redis, managers: seq<ConversationManager>, ghost ss: seq<State>)
    ensures |managers| == nodes && IsCallRun(ss, calls) && Depicts(ss[|calls|], redis, managers)
  {
    ghost var s;
    redis, managers, s := NewCluster(nodes);
    ss := [s];
    assert calls[..0] == [] && calls[..|calls|] == calls;
    hide Performs, IsCallRun;
    for i := 0 to |calls|
      invariant |managers| == nodes && Distinct(managers, redis) && fresh(redis)
      invariant forall j :: 0 <= j < |managers| ==> fresh(managers[j])
      invariant |ss| == i + 1 && IsCallRun(ss, calls[..i]) && Depicts(ss[i], redis, managers)
    {
      managers, s := Perform(redis, managers, calls[i], ss[i]);
      OneMoreCall(ss, calls, i, s);
      ss := ss + [s];
    }
  }
}
