/** One node of the cluster: its local loops and connections, and what its periodic tasks do to Redis. */
module ClusterNode {
  import opened Events
  import opened Lease

  /** Marks a connection of some node to a conversation. */
  datatype ConnectionKey = ConnectionKey(user: string, sid: string, connection: string)

  datatype Session = Session(user: string, lastActive: int, state: Option<AgentState>)

  datatype Recovery = Disconnected | SettingsMissing | Restarted(started: bool)

  predicate Connected(keys: map<ConnectionKey, nat>, now: nat, sid: string) {
    exists k :: k in keys && now < keys[k] && k.sid == sid
  }

  /** A live entry for this connection and conversation. */
  predicate Entered(entries: map<ConnectionKey, nat>, now: nat, sid: string, connection: string) {
    exists k :: k in entries && now < entries[k] && k.sid == sid && k.connection == connection
  }

  /** The scan is keyed by the connection, so of several entries of one connection it keeps some one. */
  ghost predicate IsConnectionScan(entries: map<ConnectionKey, nat>, now: nat, sids: set<string>,
                                   remote: map<string, string>)
  {
    && (forall c :: c in remote ==> Entered(entries, now, remote[c], c) && remote[c] in sids)
    && (forall k :: k in entries && now < entries[k] && k.sid in sids ==> k.connection in remote)
  }

  /** The connection has a live entry for this conversation, and none for another one of those asked for. */
  ghost predicate OwnConnection(entries: map<ConnectionKey, nat>, now: nat, sids: set<string>, sid: string, c: string) {
    Entered(entries, now, sid, c) && forall other :: other in sids && Entered(entries, now, other, c) ==> other == sid
  }

  /** Every one of the conversations that is connected has a connection of its own. */
  ghost predicate AllOwnConnections(entries: map<ConnectionKey, nat>, now: nat, sids: set<string>) {
    forall sid :: sid in sids && Connected(entries, now, sid) ==> exists c :: OwnConnection(entries, now, sids, sid, c)
  }

  function Unconnected(entries: map<ConnectionKey, nat>, now: nat, sids: set<string>): set<string> {
    set sid | sid in sids && !Connected(entries, now, sid)
  }

  /** Gives each conversation with a live key a user one of its live keys names. */
  predicate IsScan(keys: map<Key, nat>, now: nat, users: map<string, string>) {
    && users.Keys == SidsWithKey(keys, now)
    && forall sid :: sid in users ==> Live(keys, now, Key(users[sid], sid))
  }

  /** The entry of a local connection whose conversation was scanned. */
  predicate Marks(k: ConnectionKey, conns: map<string, string>, users: map<string, string>) {
    && k.connection in conns && conns[k.connection] == k.sid
    && k.sid in users && users[k.sid] == k.user && k.user != ""
  }

  /** Exactly the entries of those connections are added or refreshed. */
  ghost predicate Refreshes(before: map<ConnectionKey, nat>, after: map<ConnectionKey, nat>, now: nat,
                            conns: map<string, string>, users: map<string, string>)
  {
    && (forall k :: k in after <==> k in before || Marks(k, conns, users))
    && (forall k :: k in after ==> after[k] == if Marks(k, conns, users) then now + LEASE else before[k])
  }

  class Redis {
    var now: nat
    var keys: map<Key, nat>
    var connections: map<ConnectionKey, nat>

    constructor ()
      ensures now == 0 && keys == map[] && connections == map[]
    {
      now, keys, connections := 0, map[], map[];
    }

    method Pass(d: nat)
      modifies this`now
      ensures now == old(now) + d
    {
      now := now + d;
    }

    /** SET NX EX. */
    method SetIfAbsent(k: Key) returns (created: bool)
      modifies this`keys
      ensures created <==> !old(Live(keys, now, k))
      ensures keys == if created then Refreshed(old(keys), now, {k}) else old(keys)
    {
      created := !(k in keys && now < keys[k]);
      if created {
        keys := keys[k := now + LEASE];
      }
    }
  }

  class ConversationManager {
    const redis: Redis
    var loops: map<string, Session>
    var connections: map<string, string>

    constructor (redis: Redis)
      ensures this.redis == redis && loops == map[] && connections == map[]
    {
      this.redis, loops, connections := redis, map[], map[];
    }

    function HostedKeys(): set<Key>
      reads this
    {
      set sid | sid in loops && sid != "" :: Key(loops[sid].user, sid)
    }

    /** Starts the loop only if the key could be set, which is the acquire and register step of the lease;
        either way the conversation then has a live key. */
    method MaybeStartAgentLoop(sid: string, user: string, session: Session) returns (started: bool)
      requires session.user == user
      modifies this`loops, redis`keys
      ensures started <==> !old(Live(redis.keys, redis.now, Key(user, sid)))
      ensures redis.keys == if started then Refreshed(old(redis.keys), redis.now, {Key(user, sid)}) else old(redis.keys)
      ensures loops == if started then old(loops)[sid := session] else old(loops)
      ensures Live(redis.keys, redis.now, Key(user, sid))
    {
      started := redis.SetIfAbsent(Key(user, sid));
      if started {
        loops := loops[sid := session];
      }
    }

    /** A connection belongs to the conversation it joined last. */
    method JoinConversation(connection: string, sid: string)
      modifies this`connections
      ensures connections == old(connections)[connection := sid]
    {
      connections := connections[connection := sid];
    }

    /** The users for whom live conversation keys exist; of several users of one conversation, some one. */
    method ScanUsers() returns (users: map<string, string>)
      ensures IsScan(redis.keys, redis.now, users)
    {
      users := map[];
      var todo := redis.keys.Keys;
      while todo != {}
        invariant todo <= redis.keys.Keys
        invariant forall sid :: sid in users ==> Live(redis.keys, redis.now, Key(users[sid], sid))
        invariant forall k :: k in redis.keys && k !in todo && Live(redis.keys, redis.now, k) ==> k.sid in users
        decreases |todo|
      {
        var k :| k in todo;
        if redis.now < redis.keys[k] {
          users := users[k.sid := k.user];
        }
        todo := todo - {k};
      }
      assert forall sid :: sid in users ==> Key(users[sid], sid).sid == sid;
    }

    /** Refreshes the keys of all local loops, and those of the local connections whose conversation had a
        live key; every other entry stays as it is. */
    method UpdateStateInRedis()
      modifies redis`keys, redis`connections
      ensures redis.keys == Refreshed(old(redis.keys), redis.now, HostedKeys())
      ensures exists users :: IsScan(old(redis.keys), redis.now, users) &&
                              Refreshes(old(redis.connections), redis.connections, redis.now, connections, users)
      ensures forall k :: k in redis.connections && k !in old(redis.connections) ==>
                && k.user != "" && k.connection in connections && connections[k.connection] == k.sid
                && redis.connections[k] == redis.now + LEASE && old(Live(redis.keys, redis.now, Key(k.user, k.sid)))
    {
      var users := ScanUsers();
      redis.keys := Refreshed(redis.keys, redis.now, HostedKeys());
      MarkConnections(users);
    }

    method MarkConnections(users: map<string, string>)
      modifies redis`connections
      ensures Refreshes(old(redis.connections), redis.connections, redis.now, connections, users)
    {
      var todo := connections.Keys;
      while todo != {}
        invariant todo <= connections.Keys
        invariant Refreshes(old(redis.connections), redis.connections, redis.now, connections - todo, users)
        decreases |todo|
      {
        var c :| c in todo;
        var sid := connections[c];
        if sid in users && users[sid] != "" {
          redis.connections := redis.connections[ConnectionKey(users[sid], sid, c) := redis.now + LEASE];
        }
        todo := todo - {c};
      }
      assert connections - todo == connections;
    }

    /** Selects exactly the local connections whose conversation is neither hosted here nor has a live key. */
    method DisconnectFromStopped() returns (stopped: set<string>)
      ensures stopped == set c | c in connections && connections[c] !in loops
                                 && connections[c] !in SidsWithKey(redis.keys, redis.now)
    {
      var connectedToRemote := connections.Values - loops.Keys;
      assert forall c :: c in connections ==> connections[c] in connections.Values;
      if connectedToRemote == {} {
        assert forall c :: c in connections ==> connections[c] !in connectedToRemote;
        return {};
      }
      var users := ScanUsers();
      var stoppedSids := connectedToRemote - users.Keys;
      stopped := set c | c in connections && connections[c] in stoppedSids;
    }

    /** Closing a session removes the local connections of that conversation. If the loop is local it is
        popped first, and then its key and the keys of those connections are deleted; without a local loop
        the delete is never awaited and no key changes. */
    method CloseSession(sid: string)
      modifies this, redis`keys, redis`connections
      ensures connections == map c | c in old(connections) && old(connections)[c] != sid :: old(connections)[c]
      ensures loops == old(loops) - {sid}
      ensures redis.keys ==
                if sid in old(loops) then old(redis.keys) - {Key(old(loops)[sid].user, sid)} else old(redis.keys)
      ensures redis.connections ==
                if sid in old(loops)
                then map k | k in old(redis.connections) &&
                             !(k.sid == sid && k.connection in old(connections)
                               && old(connections)[k.connection] == sid) ::
                       old(redis.connections)[k]
                else old(redis.connections)
    {
      var toRemove := set c | c in connections && connections[c] == sid;
      var toDelete := set k | k in redis.connections && k.sid == sid && k.connection in toRemove;
      connections := connections - toRemove;
      if sid !in loops {
        loops := loops - {sid};
        return;
      }
      var user := loops[sid].user;
      loops := loops - {sid};
      redis.keys := redis.keys - {Key(user, sid)};
      redis.connections := redis.connections - toDelete;
    }

    /** The conversations of a user that run here or hold a live key. */
    function RunningFor(user: string): set<string>
      reads this, redis
    {
      (set sid | sid in loops && loops[sid].user == user)
      + set k | k in redis.keys && Live(redis.keys, redis.now, k) && k.user == user :: k.sid
    }

    /** Restarts the conversation of a connection, unless user or conversation are unknown, too many
        conversations run, or the settings cannot be loaded; the restart again needs the key to be absent. */
    method HandleRemoteConversationStopped(user: string, connection: string, limit: nat, settingsFound: bool,
                                           session: Session) returns (r: Recovery)
      requires session.user == user
      modifies this`loops, redis`keys
      ensures r.Restarted? <==> && user != "" && connection in connections && connections[connection] != ""
                                && |old(RunningFor(user))| <= limit && settingsFound
      ensures !r.Restarted? ==> loops == old(loops) && redis.keys == old(redis.keys)
      ensures r.Restarted? ==> (r.started <==> !old(Live(redis.keys, redis.now, Key(user, connections[connection]))))
      ensures r.Restarted? ==> loops == if r.started then old(loops)[connections[connection] := session] else old(loops)
      ensures r.Restarted? ==>
                redis.keys == if r.started
                              then Refreshed(old(redis.keys), redis.now, {Key(user, connections[connection])})
                              else old(redis.keys)
      ensures r == SettingsMissing ==> !settingsFound
    {
      if user == "" || connection !in connections || connections[connection] == "" {
        return Disconnected;
      }
      if |RunningFor(user)| > limit {
        return Disconnected;
      }
      if !settingsFound {
        return SettingsMissing;
      }
      var started := MaybeStartAgentLoop(connections[connection], user, session);
      return Restarted(started);
    }

    /** The idle sessions without a local connection. */
    function IdleAlone(threshold: int): set<string>
      reads this
    {
      set sid | sid in loops && Idle(sid, threshold) && sid !in connections.Values
    }

    predicate Idle(sid: string, threshold: int)
      reads this
    {
      sid in loops && loops[sid].lastActive < threshold && loops[sid].state != Some(RUNNING) && loops[sid].state != None
    }

    /** For every connection with live entries for some of the conversations, one of those conversations. */
    method ScanConnections(sids: set<string>) returns (remote: map<string, string>)
      ensures IsConnectionScan(redis.connections, redis.now, sids, remote)
    {
      remote := map[];
      var todo := redis.connections.Keys;
      while todo != {}
        invariant todo <= redis.connections.Keys
        invariant forall c :: c in remote ==> Entered(redis.connections, redis.now, remote[c], c) && remote[c] in sids
        invariant forall k :: k in redis.connections && k !in todo
                              && redis.now < redis.connections[k] && k.sid in sids ==>
                    k.connection in remote
        decreases |todo|
      {
        var k :| k in todo;
        if redis.now < redis.connections[k] && k.sid in sids {
          assert ConnectionKey(k.user, k.sid, k.connection) == k;
          remote := remote[k.connection := k.sid];
        }
        todo := todo - {k};
      }
    }

    /** Closes the sessions that are idle past the threshold and have no local connection, except those that the
        scan of the remote connections names; nothing else changes. An idle session without any connection is always
        closed. Only those are, if each connected idle session has a connection that no other idle session shares. */
    method CloseDisconnected(clock: int, closeDelay: int) returns (closed: set<string>, remote: map<string, string>)
      modifies this, redis`keys, redis`connections
      ensures IsConnectionScan(old(redis.connections), redis.now, old(IdleAlone(clock - closeDelay)), remote)
      ensures closed == old(IdleAlone(clock - closeDelay)) - remote.Values
      ensures Unconnected(redis.connections, redis.now, old(IdleAlone(clock - closeDelay))) <= closed
      ensures AllOwnConnections(redis.connections, redis.now, old(IdleAlone(clock - closeDelay))) ==>
                closed == Unconnected(redis.connections, redis.now, old(IdleAlone(clock - closeDelay)))
      ensures forall sid :: sid in old(loops) && old(loops)[sid].lastActive < clock - closeDelay
                            && old(loops)[sid].state.Some? && old(loops)[sid].state.value != RUNNING
                            && sid !in old(connections).Values && !old(Connected(redis.connections, redis.now, sid)) ==>
                sid in closed && sid !in loops
      ensures forall sid :: sid in closed ==>
                && sid in old(loops) && old(loops)[sid].lastActive < clock - closeDelay
                && old(loops)[sid].state.Some? && old(loops)[sid].state.value != RUNNING
                && sid !in old(connections).Values
      ensures loops == old(loops) - closed
      ensures redis.keys == old(redis.keys) - set sid | sid in closed :: Key(old(loops)[sid].user, sid)
      ensures connections == old(connections) && redis.connections == old(redis.connections)
    {
      var candidates := IdleAlone(clock - closeDelay);
      remote := ScanConnections(candidates);
      closed := candidates - remote.Values;
      ScanNamesOnlyTheConnected(redis.connections, redis.now, candidates, remote);
      if AllOwnConnections(redis.connections, redis.now, candidates) {
        OwnConnectionsAreFound(redis.connections, redis.now, candidates, remote);
      }
      assert closed <= loops.Keys && closed !! connections.Values;
      hide *;
      CloseAll(closed);
    }

    method CloseAll(sids: set<string>)
      requires sids <= loops.Keys && sids !! connections.Values
      modifies this, redis`keys, redis`connections
      ensures loops == old(loops) - sids
      ensures redis.keys == old(redis.keys) - set sid | sid in sids :: Key(old(loops)[sid].user, sid)
      ensures connections == old(connections) && redis.connections == old(redis.connections)
    {
      var todo := sids;
      while todo != {}
        invariant todo <= sids
        invariant loops == old(loops) - (sids - todo)
        invariant redis.keys == old(redis.keys) - set sid | sid in sids - todo :: Key(old(loops)[sid].user, sid)
        invariant connections == old(connections) && redis.connections == old(redis.connections)
        decreases |todo|
      {
        var sid :| sid in todo;
        assert forall c :: c in connections ==> connections[c] in connections.Values;
        CloseSession(sid);
        todo := todo - {sid};
      }
      assert sids - todo == sids;
    }
  }

  lemma ScanNamesOnlyTheConnected(entries: map<ConnectionKey, nat>, now: nat, sids: set<string>,
                                  remote: map<string, string>)
    requires IsConnectionScan(entries, now, sids, remote)
    ensures Unconnected(entries, now, sids) <= sids - remote.Values
  {
  }

  lemma OwnConnectionIsFound(entries: map<ConnectionKey, nat>, now: nat, sids: set<string>,
                             remote: map<string, string>, sid: string, c: string)
    requires IsConnectionScan(entries, now, sids, remote) && sid in sids && OwnConnection(entries, now, sids, sid, c)
    ensures sid in remote.Values
  {
    assert c in remote && Entered(entries, now, remote[c], c);
    assert remote[c] in remote.Values;
  }

  lemma OwnConnectionsAreFound(entries: map<ConnectionKey, nat>, now: nat, sids: set<string>,
                               remote: map<string, string>)
    requires IsConnectionScan(entries, now, sids, remote) && AllOwnConnections(entries, now, sids)
    ensures sids - remote.Values == Unconnected(entries, now, sids)
  {
    ScanNamesOnlyTheConnected(entries, now, sids, remote);
    forall sid | sid in sids && Connected(entries, now, sid) ensures sid in remote.Values {
      var c :| OwnConnection(entries, now, sids, sid, c);
      OwnConnectionIsFound(entries, now, sids, remote, sid, c);
    }
  }

  /** Of the conversations that a connection names, another one than `sid` if there is one. */
  ghost function Other(entries: map<ConnectionKey, nat>, now: nat, sids: set<string>, sid: string, c: string)
    : (r: string)
    requires exists a :: a in sids && Entered(entries, now, a, c)
    ensures r in sids && Entered(entries, now, r, c)
    ensures r == sid ==> OwnConnection(entries, now, sids, sid, c)
  {
    if a :| a in sids && Entered(entries, now, a, c) && a != sid then a else sid
  }

  /** A scan that names `sid` only for connections of its own. */
  lemma ScanThatMisses(entries: map<ConnectionKey, nat>, now: nat, sids: set<string>, sid: string)
    returns (remote: map<string, string>)
    ensures IsConnectionScan(entries, now, sids, remote)
    ensures sid in remote.Values ==> exists c :: OwnConnection(entries, now, sids, sid, c)
  {
    var found := set k | k in entries && now < entries[k] && k.sid in sids :: k.connection;
    forall c | c in found ensures exists a :: a in sids && Entered(entries, now, a, c) {
      var k :| k in entries && now < entries[k] && k.sid in sids && k.connection == c;
      assert Entered(entries, now, k.sid, c);
    }
    remote := map c | c in found :: Other(entries, now, sids, sid, c);
  }

  /** The exact condition: whatever scan is made, closing spares all connected idle conversations, if and only if
      each of them has a connection with no live entry for another one of them. */
  lemma ClosingIsExactIff(entries: map<ConnectionKey, nat>, now: nat, sids: set<string>)
    ensures (forall remote :: IsConnectionScan(entries, now, sids, remote) ==>
                                sids - remote.Values == Unconnected(entries, now, sids))
            <==> AllOwnConnections(entries, now, sids)
  {
    if AllOwnConnections(entries, now, sids) {
      forall remote | IsConnectionScan(entries, now, sids, remote)
        ensures sids - remote.Values == Unconnected(entries, now, sids)
      {
        OwnConnectionsAreFound(entries, now, sids, remote);
      }
    } else {
      var sid :| sid in sids && Connected(entries, now, sid) && !exists c :: OwnConnection(entries, now, sids, sid, c);
      var remote := ScanThatMisses(entries, now, sids, sid);
      assert sid in sids - remote.Values && sid !in Unconnected(entries, now, sids);
    }
  }

  /** Where one connection has live entries for two idle conversations, a scan names only one of them, and the other
      is closed although it is connected. */
  lemma SharedConnectionProtectsOne(user: string, now: nat)
    ensures var entries := map[ConnectionKey(user, "a", "c") := now + LEASE,
                               ConnectionKey(user, "b", "c") := now + LEASE];
            && IsConnectionScan(entries, now, {"a", "b"}, map["c" := "a"])
            && Connected(entries, now, "b") && "b" !in (map["c" := "a"]).Values
  {
    var entries := map[ConnectionKey(user, "a", "c") := now + LEASE, ConnectionKey(user, "b", "c") := now + LEASE];
    assert ConnectionKey(user, "a", "c") in entries && ConnectionKey(user, "b", "c") in entries;
    assert ConnectionKey(user, "a", "c").sid == "a" && "a" != "b";
    assert Entered(entries, now, "a", "c");
  }
}
