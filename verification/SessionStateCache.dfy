/**
 MemoryCache (adapter/sessionstate/cache.go): the live snapshot of every session, with
 an index from each host to the sessions it owns.  Every operation takes the lock, so
 each is one step; they are specified on the one map the two-index structure stands for.
 */
module SessionStateCache {
  import opened Wrappers

  type SessionId = string
  type HostId = string

  /** The container's session message; only the user count and the world address are ever rewritten here. */
  datatype Snapshot = Snapshot(
    id: SessionId,
    name: string,
    usersCount: int,
    worldUrl: string,
    settings: map<string, string>)

  datatype Entry = Entry(host: HostId, snapshot: Snapshot)

  type Cache = map<SessionId, Entry>
  type HostIndex = map<HostId, set<SessionId>>

  // ---------------------------------------------------------------- the simple map

  datatype Op =
    | SetOp(host: HostId, id: SessionId, snapshot: Option<Snapshot>)
    | DeleteOp(id: SessionId)
    | PruneOp(host: HostId, live: set<SessionId>)

  function Apply(c: Cache, op: Op): Cache {
    match op
    case SetOp(host, id, snapshot) => if snapshot.None? then c else c[id := Entry(host, snapshot.value)]
    case DeleteOp(id) => c - {id}
    case PruneOp(host, live) => map id | id in c && (c[id].host == host ==> id in live) :: c[id]
  }

  function Run(c: Cache, ops: seq<Op>): Cache
    decreases |ops|
  {
    if ops == [] then c else Apply(Run(c, ops[..|ops| - 1]), ops[|ops| - 1])
  }

  // ---------------------------------------------------------------- the two indexes

  /** The host index holds exactly the ownership the entries state, and no host without sessions. */
  ghost predicate Indexes(hosts: HostIndex, c: Cache) {
    && (forall h, id :: h in hosts && id in hosts[h] ==> id in c && c[id].host == h)
    && (forall id :: id in c ==> c[id].host in hosts && id in hosts[c[id].host])
    && (forall h :: h in hosts ==> hosts[h] != {})
  }

  /** There is only one such index: the entries determine it. */
  lemma IndexIsDetermined(hosts: HostIndex, hosts': HostIndex, c: Cache)
    requires Indexes(hosts, c) && Indexes(hosts', c)
    ensures hosts == hosts'
  {
    forall h | h in hosts
      ensures h in hosts' && hosts[h] == hosts'[h]
    {
      SameSessions(hosts, hosts', c, h);
    }
    forall h | h in hosts'
      ensures h in hosts
    {
      SameSessions(hosts', hosts, c, h);
    }
  }

  lemma SameSessions(hosts: HostIndex, hosts': HostIndex, c: Cache, h: HostId)
    requires Indexes(hosts, c) && Indexes(hosts', c) && h in hosts
    ensures h in hosts' && hosts[h] == hosts'[h]
  {
    var id :| id in hosts[h];
    assert c[id].host == h;
    assert forall x :: x in hosts[h] <==> x in c && c[x].host == h;
    assert forall x :: x in hosts'[h] <==> x in c && c[x].host == h;
  }

  /** The index without session `id` under `host`. */
  function IndexWithout(hosts: HostIndex, host: HostId, id: SessionId): HostIndex {
    if host !in hosts then hosts
    else if hosts[host] - {id} == {} then hosts - {host}
    else hosts[host := hosts[host] - {id}]
  }

  lemma RemoveKeepsIndex(hosts: HostIndex, c: Cache, id: SessionId)
    requires Indexes(hosts, c) && id in c
    ensures Indexes(IndexWithout(hosts, c[id].host, id), c - {id})
  {
    var host := c[id].host;
    var hosts' := IndexWithout(hosts, host, id);
    forall x | x in c - {id}
      ensures c[x].host in hosts' && x in hosts'[c[x].host]
    {
      assert c[x].host == host ==> x in hosts[host] - {id};
    }
  }

  /** The index after a prune: the host keeps its live sessions, and is dropped if it has none. */
  function PrunedIndex(hosts: HostIndex, host: HostId, live: set<SessionId>): HostIndex {
    if host !in hosts then hosts
    else if hosts[host] * live == {} then hosts - {host}
    else hosts[host := hosts[host] * live]
  }

  lemma PruneKeepsIndex(hosts: HostIndex, c: Cache, host: HostId, live: set<SessionId>)
    requires Indexes(hosts, c)
    ensures Indexes(PrunedIndex(hosts, host, live), Apply(c, PruneOp(host, live)))
  {
    var hosts', c' := PrunedIndex(hosts, host, live), Apply(c, PruneOp(host, live));
    forall id | id in c'
      ensures c'[id].host in hosts' && id in hosts'[c'[id].host]
    {
      assert c[id].host == host ==> id in hosts[host] * live;
    }
  }

  /** The index after a write: the session leaves its old host, if that is another one, and joins its new one. */
  function IndexWith(hosts: HostIndex, c: Cache, host: HostId, id: SessionId): HostIndex {
    var left := if id in c && c[id].host != host then IndexWithout(hosts, c[id].host, id) else hosts;
    left[host := (if host in left then left[host] else {}) + {id}]
  }

  lemma SetKeepsIndex(hosts: HostIndex, c: Cache, host: HostId, id: SessionId, snapshot: Snapshot)
    requires Indexes(hosts, c)
    ensures Indexes(IndexWith(hosts, c, host, id), c[id := Entry(host, snapshot)])
  {
    if id in c && c[id].host != host {
      RemoveKeepsIndex(hosts, c, id);
      JoinKeepsIndex(IndexWithout(hosts, c[id].host, id), c - {id}, c, host, id, snapshot);
    } else {
      JoinKeepsIndex(hosts, c, c, host, id, snapshot);
    }
  }

  /** The session joins the host's set; before, it was in no other host's. */
  lemma JoinKeepsIndex(hosts: HostIndex, before: Cache, c: Cache, host: HostId, id: SessionId, snapshot: Snapshot)
    requires Indexes(hosts, before) && (before == c || before == c - {id}) && (id in before ==> before[id].host == host)
    ensures Indexes(hosts[host := (if host in hosts then hosts[host] else {}) + {id}], c[id := Entry(host, snapshot)])
  {
    var owned, c' := (if host in hosts then hosts[host] else {}) + {id}, c[id := Entry(host, snapshot)];
    var hosts' := hosts[host := owned];
    assert forall x :: x in c && x != id ==> x in before && before[x] == c[x];
    forall x | x in c'
      ensures c'[x].host in hosts' && x in hosts'[c'[x].host]
    {
      assert x != id ==> x in hosts[before[x].host];
    }
    assert id in owned;
    forall h, x | h in hosts' && x in hosts'[h]
      ensures x in c' && c'[x].host == h
    {
      assert h in hosts && x in hosts[h] ==> x in before && before[x].host == h;
      assert h != host ==> h in hosts && x in hosts[h];
    }
  }

  /** What has been pruned once one more session has been looked at. */
  lemma PruneTurn(owned: set<SessionId>, todo: set<SessionId>, live: set<SessionId>, id: SessionId)
    requires id in todo && todo <= owned
    ensures owned - (todo - {id}) - live == owned - todo - live + if id in live then {} else {id}
  {
  }

  lemma DropOneMore(c: Cache, gone: set<SessionId>, id: SessionId)
    ensures c - gone - {id} == c - (gone + {id})
  {
  }

  lemma PruneDropsOwned(hosts: HostIndex, c: Cache, host: HostId, live: set<SessionId>)
    requires Indexes(hosts, c) && host in hosts
    ensures c - (hosts[host] - {} - live) == Apply(c, PruneOp(host, live))
  {
  }

  class MemoryCache {
    var sessions: Cache
    var hostSessions: HostIndex

    ghost predicate Valid()
      reads this
    {
      Indexes(hostSessions, sessions)
    }

    constructor ()
      ensures Valid() && sessions == map[]
    {
      sessions := map[];
      hostSessions := map[];
    }

    method Get(id: SessionId) returns (snapshot: Option<Snapshot>)
      ensures snapshot == if id in sessions then Some(sessions[id].snapshot) else None
    {
      if id !in sessions {
        return None;
      }
      return Some(sessions[id].snapshot);
    }

    method Set(host: HostId, id: SessionId, snapshot: Option<Snapshot>)
      requires Valid()
      modifies this
      ensures Valid() && sessions == Apply(old(sessions), SetOp(host, id, snapshot))
    {
      if snapshot.None? {
        return;
      }
      // A session that moved here from another host leaves that host's index.
      if id in sessions && sessions[id].host != host {
        RemoveFromHostIndex(sessions[id].host, id);
      }
      sessions := sessions[id := Entry(host, snapshot.value)];
      var owned := if host in hostSessions then hostSessions[host] else {};
      hostSessions := hostSessions[host := owned + {id}];
      SetKeepsIndex(old(hostSessions), old(sessions), host, id, snapshot.value);
    }

    method Delete(id: SessionId)
      requires Valid()
      modifies this
      ensures Valid() && sessions == Apply(old(sessions), DeleteOp(id))
    {
      if id !in sessions {
        return;
      }
      var host := sessions[id].host;
      sessions := sessions - {id};
      RemoveFromHostIndex(host, id);
      RemoveKeepsIndex(old(hostSessions), old(sessions), id);
    }

    method PruneHost(host: HostId, live: set<SessionId>)
      requires Valid()
      modifies this
      ensures Valid() && sessions == Apply(old(sessions), PruneOp(host, live))
    {
      if host !in hostSessions {
        return;
      }
      var todo := hostSessions[host];
      ghost var owned := todo;
      while todo != {}
        invariant todo <= owned
        invariant sessions == old(sessions) - (owned - todo - live)
        invariant host in hostSessions && hostSessions == old(hostSessions)[host := hostSessions[host]]
        invariant hostSessions[host] == owned - (owned - todo - live)
        decreases todo
      {
        var id :| id in todo;
        PruneTurn(owned, todo, live, id);
        if id !in live {
          DropOneMore(old(sessions), owned - todo - live, id);
          sessions := sessions - {id};
          hostSessions := hostSessions[host := hostSessions[host] - {id}];
        }
        todo := todo - {id};
      }
      assert hostSessions[host] == owned * live;
      PruneDropsOwned(old(hostSessions), old(sessions), host, live);
      if hostSessions[host] == {} {
        hostSessions := hostSessions - {host};
      }
      PruneKeepsIndex(old(hostSessions), old(sessions), host, live);
    }

    /** Takes the session out of the index only, and the host with it when nothing is left. */
    method RemoveFromHostIndex(host: HostId, id: SessionId)
      modifies this`hostSessions
      ensures hostSessions == IndexWithout(old(hostSessions), host, id)
    {
      if host !in hostSessions {
        return;
      }
      var owned := hostSessions[host] - {id};
      if owned == {} {
        hostSessions := hostSessions - {host};
      } else {
        hostSessions := hostSessions[host := owned];
      }
    }

    /** Any sequence of operations: the two indexes stay in step with the single map. */
    method Perform(ops: seq<Op>)
      requires Valid()
      modifies this
      ensures Valid() && sessions == Run(old(sessions), ops)
    {
      for i := 0 to |ops|
        invariant Valid() && sessions == Run(old(sessions), ops[..i])
      {
        match ops[i] {
          case SetOp(host, id, snapshot) => Set(host, id, snapshot);
          case DeleteOp(id) => Delete(id);
          case PruneOp(host, live) => PruneHost(host, live);
        }
        assert ops[..i + 1][..i] == ops[..i];
      }
      assert ops[..|ops|] == ops;
    }
  }

  // ---------------------------------------------------------------- what a run leaves behind

  /** Operation i wrote the entry of `id` and no later one removed or replaced it. */
  ghost predicate LastWrite(ops: seq<Op>, i: int, id: SessionId) {
    && 0 <= i < |ops| && ops[i].SetOp? && ops[i].id == id && ops[i].snapshot.Some?
    && forall j :: i < j < |ops| ==> Spares(ops[j], id, ops[i].host)
  }

  /** The operation leaves an entry of `id` owned by `host` alone. */
  predicate Spares(op: Op, id: SessionId, host: HostId) {
    match op
    case SetOp(_, id', snapshot) => id' != id || snapshot.None?
    case DeleteOp(id') => id' != id
    case PruneOp(host', live) => host' == host ==> id in live
  }

  /**
   A session is cached exactly when some write of it was not followed by a delete of it
   or a prune of the host that wrote it last; that write gives both snapshot and owner.
   In particular a prune of a host the session moved away from never touches it.
   */
  lemma {:induction false} CachedIffWrittenLast(ops: seq<Op>, id: SessionId)
    ensures id in Run(map[], ops) <==> exists i :: LastWrite(ops, i, id)
    ensures forall i :: LastWrite(ops, i, id) && id in Run(map[], ops) ==>
              Run(map[], ops)[id] == Entry(ops[i].host, ops[i].snapshot.value)
    decreases |ops|
  {
    if ops != [] {
      var before, n := ops[..|ops| - 1], |ops| - 1;
      CachedIffWrittenLast(before, id);
      var c := Run(map[], before);
      var op := ops[n];
      assert forall i :: LastWrite(ops, i, id) && i < n ==> LastWrite(before, i, id);
      if op.SetOp? && op.id == id && op.snapshot.Some? {
        assert LastWrite(ops, n, id);
      } else if id in c && Spares(op, id, c[id].host) {
        var i :| LastWrite(before, i, id);
        assert LastWrite(ops, i, id);
      }
    }
  }
}
