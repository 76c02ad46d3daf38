/**
 Starting, stopping and deleting a session through the controller
 (usecase/session_usecase.go:81-216, usecase/session_usecase.go:467-484):
 a call to the container, then the row, then the cache, in this order, so that dying
 in between leaves neither a cached session without a row nor a running row without
 its cached state.
 */
module SessionUsecase {
  import opened Wrappers
  import opened SessionStateCache
  import T = SessionTable
  import U = UpgradeOrchestrator
  import G = PermissionUsecases
  import PermissionState
  import PortProbe

  /** What outlives the call: the container acted, the row was saved, the cache was written. */
  datatype Effect = ContainerCalled | RowSaved | CacheWritten

  const IN_ORDER: seq<Effect> := [ContainerCalled, RowSaved, CacheWritten]

  const START_KEYS: set<PermissionState.Key> := {"host:use", "account:use", "session:write"}
  const STOP_KEYS: set<PermissionState.Key> := {"session:write"}

  /** The world the container started. */
  datatype World = World(name: string, startedAt: T.Time, snapshot: Snapshot)

  /**
   The clock, which ports are free, and the answers of the container and the table; None or false
   is a failed call.
   */
  datatype StartAnswers = StartAnswers(reachable: bool, nanos: nat, portFree: nat -> bool, world: Option<World>,
                                       saved: bool)

  /** `forcePort` is the port the parameters ask for, 0 when they leave it open. */
  datatype StartRequest = StartRequest(
    host: T.HostId,
    group: T.GroupId,
    user: Option<string>,
    memo: Option<string>,
    params: T.Parameters,
    forcePort: nat)

  datatype StopAnswers = StopAnswers(reachable: bool, stopped: bool, saved: bool)

  /** An empty memo is stored as NULL. */
  function MemoColumn(memo: Option<string>): Option<string> {
    if memo == Some("") then None else memo
  }

  /** Every cached session has a row. */
  ghost predicate Backed(c: Cache, rows: T.Rows) {
    forall id :: id in c ==> id in rows
  }

  lemma StartKeysMean(st: PermissionState.Store, caller: PermissionState.UserId, g: PermissionState.GroupId)
    ensures PermissionState.MayGrant(st, caller, g, START_KEYS)
       <==> forall k :: k in {"host:use", "account:use", "session:write"} ==> PermissionState.Holds(st, caller, g, k)
  {
    forall k | k in START_KEYS
      ensures PermissionState.HasPermission(st, caller, g, k) <==> PermissionState.Holds(st, caller, g, k)
    {
      PermissionState.NotSystemKey(k);
      PermissionState.PermissionMeans(st, caller, g, k);
    }
  }

  lemma StopKeysMean(st: PermissionState.Store, caller: PermissionState.UserId, g: PermissionState.GroupId)
    ensures PermissionState.MayGrant(st, caller, g, STOP_KEYS)
            <==> PermissionState.Holds(st, caller, g, "session:write")
  {
    PermissionState.NotSystemKey("session:write");
    PermissionState.PermissionMeans(st, caller, g, "session:write");
    assert "session:write" in STOP_KEYS;
  }

  class SessionUsecase {
    const repo: T.SessionRepository
    const cache: MemoryCache
    const drainer: U.HostUpgradeOrchestrator
    const permissions: G.Usecases
    const portMin: int
    const portMax: int

    constructor (repo: T.SessionRepository, cache: MemoryCache, drainer: U.HostUpgradeOrchestrator,
                 permissions: G.Usecases,
                 portMin: int, portMax: int)
      ensures this.repo == repo && this.cache == cache && this.drainer == drainer && this.permissions == permissions
      ensures this.portMin == portMin && this.portMax == portMax
    {
      this.repo, this.cache, this.drainer, this.permissions := repo, cache, drainer, permissions;
      this.portMin, this.portMax := portMin, portMax;
    }

    /** The caller may start a session of the requested group on the host, and the host takes sessions. */
    predicate MayStart(caller: PermissionState.UserId, r: StartRequest)
      reads repo, drainer, permissions
    {
      && r.host !in drainer.drainTargets
      && r.host in repo.hosts && (r.group == "" || r.group == repo.hosts[r.host])
      && PermissionState.MayGrant(permissions.st, caller, repo.hosts[r.host], START_KEYS)
    }

    /**
     A port the container may be given: the requested one, or a free one of the configured range, or
     0 without a range.
     */
    predicate PortFor(r: StartRequest, port: int) {
      if r.forcePort != 0 then port == r.forcePort
      else if portMin == 0 && portMax == 0 then port == 0
      else portMin <= port <= portMax
    }

    /** The port for the container, None when there is none to give. */
    method ChoosePort(r: StartRequest, a: StartAnswers) returns (port: Option<int>)
      ensures port.Some? ==> PortFor(r, port.value)
      ensures port.None? ==> r.forcePort == 0 && !(portMin == 0 && portMax == 0)
    {
      if r.forcePort != 0 {
        return Some(r.forcePort);
      }
      var found, probed := PortProbe.GetFreeSessionPort(portMin, portMax, a.nanos, a.portFree);
      match found {
        case Port(p) => return Some(p);
        case Unassigned => return Some(0);
        case _ => return None;
      }
    }

    /**
     `lifetime` is how many effects the process lives to see; `effects` are those it saw,
     and `port` is what the container was given, if a port was found for it.  The row keeps
     the parameters as requested.
     */
    method StartSession(caller: PermissionState.UserId, r: StartRequest, a: StartAnswers, lifetime: nat)
      returns (effects: seq<Effect>, port: Option<int>)
      requires cache.Valid()
      modifies repo`rows, cache
      ensures cache.Valid() && effects <= IN_ORDER
      ensures effects != [] <==> old(MayStart(caller, r)) && a.reachable && port.Some? && a.world.Some? && lifetime > 0
      // Nothing happens on a draining or unknown host, for another group, or without each of the keys.
      ensures effects != [] ==>
                && r.host !in old(drainer.drainTargets) && r.host in repo.hosts
                && (r.group == "" || r.group == repo.hosts[r.host])
                && forall k :: k in {"host:use", "account:use", "session:write"} ==>
                     PermissionState.Holds(old(permissions.st), caller, repo.hosts[r.host], k)
      ensures port.Some? ==> PortFor(r, port.value)
      ensures old(MayStart(caller, r)) && a.reachable && (r.forcePort != 0 || (portMin == 0 && portMax == 0)) ==>
                port.Some?
      ensures |effects| == 3 <==> effects != [] && a.saved && lifetime >= 3
      ensures repo.rows == if |effects| >= 2 then
                             T.Upsert(old(repo.rows), a.world.value.snapshot.id,
                                      T.Row(a.world.value.name, T.RUNNING, Some(a.world.value.startedAt), None,
                                            r.host, r.user,
                                            MemoColumn(r.memo), r.params, false, repo.hosts[r.host]))
                           else old(repo.rows)
      ensures cache.sessions == if |effects| == 3 then
                old(cache.sessions)[a.world.value.snapshot.id := Entry(r.host, a.world.value.snapshot)]
                                else old(cache.sessions)
      ensures Backed(old(cache.sessions), old(repo.rows)) ==> Backed(cache.sessions, repo.rows)
    {
      effects, port := [], None;
      StartKeysMean(permissions.st, caller, if r.host in repo.hosts then repo.hosts[r.host] else "");
      var draining := drainer.IsHostDraining(r.host);
      if draining {
        return;
      }
      if r.host !in repo.hosts {
        return;
      }
      var hostGroup := repo.hosts[r.host];
      var group := if r.group == "" then hostGroup else r.group;
      if group != hostGroup {
        return;
      }
      var permitted := permissions.RequireSubsetOfCaller(caller, hostGroup, START_KEYS);
      if !permitted || !a.reachable {
        return;
      }
      port := ChoosePort(r, a);
      if port.None? || a.world.None? || lifetime == 0 {
        return;
      }
      effects := [ContainerCalled];
      var world := a.world.value;
      if !a.saved || lifetime == 1 {
        return;
      }
      repo.Save(world.snapshot.id,
                T.Row(world.name, T.RUNNING, Some(world.startedAt), None, r.host, r.user, MemoColumn(r.memo),
                      r.params, false, group));
      effects := effects + [RowSaved];
      if lifetime == 2 {
        return;
      }
      cache.Set(r.host, world.snapshot.id, Some(world.snapshot));
      effects := effects + [CacheWritten];
    }

    /** The row that is saved is the one read at the beginning, with the cached world address put in if there is one. */
    method StopSession(caller: PermissionState.UserId, id: SessionId, a: StopAnswers, now: T.Time, lifetime: nat)
      returns (effects: seq<Effect>)
      requires cache.Valid()
      modifies repo`rows, cache
      ensures cache.Valid() && effects <= IN_ORDER
      ensures effects != [] <==> id in old(repo.rows)
                                 && PermissionState.MayGrant(permissions.st, caller, old(repo.rows)[id].groupId,
                                                             STOP_KEYS)
                                 && a.reachable && a.stopped && lifetime > 0
      ensures effects != [] ==>
                PermissionState.Holds(permissions.st, caller, old(repo.rows)[id].groupId, "session:write")
      ensures |effects| == 3 <==> effects != [] && a.saved && lifetime >= 3
      ensures if |effects| >= 2 then
                var was, params := old(repo.rows)[id], old(repo.rows)[id].startupParameters;
                var address := if id in old(cache.sessions) then old(cache.sessions)[id].snapshot.worldUrl else "";
                repo.rows == old(repo.rows)[id := was.(status := T.ENDED, endedAt := Some(now),
                                                       startupParameters := if address == "" then params
                                                                            else T.WithLoadUrl(params, address))]
              else repo.rows == old(repo.rows)
      ensures cache.sessions == if |effects| == 3 then old(cache.sessions) - {id} else old(cache.sessions)
      // Whenever the process dies: the cached state is gone only once the row says ENDED.
      ensures id in old(cache.sessions) && id !in cache.sessions ==> id in repo.rows && repo.rows[id].status == T.ENDED
      ensures Backed(old(cache.sessions), old(repo.rows)) ==> Backed(cache.sessions, repo.rows)
    {
      effects := [];
      var found := repo.Get(id);
      if found.None? {
        return;
      }
      var row := found.value;
      StopKeysMean(permissions.st, caller, row.groupId);
      var permitted := permissions.RequireSubsetOfCaller(caller, row.groupId, STOP_KEYS);
      if !permitted || !a.reachable {
        return;
      }
      var snapshot := cache.Get(id);
      if snapshot.Some? && snapshot.value.worldUrl != "" {
        row := row.(startupParameters := T.WithLoadUrl(row.startupParameters, snapshot.value.worldUrl));
      }
      if !a.stopped || lifetime == 0 {
        return;
      }
      effects := [ContainerCalled];
      if !a.saved || lifetime == 1 {
        return;
      }
      repo.Save(id, row.(status := T.ENDED, endedAt := Some(now)));
      effects := effects + [RowSaved];
      if lifetime == 2 {
        return;
      }
      cache.Delete(id);
      effects := effects + [CacheWritten];
    }

    /** Row and cached state go together, or neither does; `works` says whether the statement does. */
    method DeleteSession(caller: PermissionState.UserId, id: SessionId, works: bool) returns (deleted: bool)
      requires cache.Valid()
      modifies repo`rows, cache
      ensures cache.Valid()
      ensures deleted <==> id in old(repo.rows) && works
                           && PermissionState.MayGrant(permissions.st, caller, old(repo.rows)[id].groupId, STOP_KEYS)
      ensures deleted <==> id in old(repo.rows) && works
                           && PermissionState.Holds(permissions.st, caller, old(repo.rows)[id].groupId, "session:write")
      ensures repo.rows == if deleted then old(repo.rows) - {id} else old(repo.rows)
      ensures cache.sessions == if deleted then old(cache.sessions) - {id} else old(cache.sessions)
      ensures Backed(old(cache.sessions), old(repo.rows)) ==> Backed(cache.sessions, repo.rows)
    {
      var found := repo.Get(id);
      if found.None? {
        return false;
      }
      StopKeysMean(permissions.st, caller, found.value.groupId);
      deleted := permissions.RequireSubsetOfCaller(caller, found.value.groupId, STOP_KEYS);
      if !deleted || !works {
        return false;
      }
      repo.DeleteSession(id);
      cache.Delete(id);
    }
  }
}
