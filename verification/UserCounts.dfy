/**
 The two places that count a session's users from join and leave events: the upgrade
 orchestrator's cache (worker/host_upgrade_orchestrator.go:198-207) and the cached
 snapshots (worker/session_state_sync_handler.go:143-198).  Over any sequence of events, what
 each of them says of a session is stated by the events alone.
 */
module UserCounts {
  import opened Wrappers
  import U = UpgradeState
  import C = SessionStateCache
  import R = StreamReset

  /** A count that int32 holds and that is not negative. */
  predicate IsCount(n: int) {
    0 <= n < 0x8000_0000
  }

  // ---------------------------------------------------------------- the orchestrator's counts

  datatype Visit = Joined(host: string, id: string) | Left(host: string, id: string) | Ended(host: string, id: string)

  function Noted(u: U.Users, v: Visit): U.Users {
    match v
    case Joined(h, id) => U.Bump(u, h, id, 1)
    case Left(h, id) => U.Bump(u, h, id, -1)
    case Ended(h, id) => U.Forget(u, h, id)
  }

  function UsersAfter(u: U.Users, visits: seq<Visit>): U.Users
    decreases |visits|
  {
    if visits == [] then u else Noted(UsersAfter(u, visits[..|visits| - 1]), visits[|visits| - 1])
  }

  /** The cached count; a session that is not counted has none, which reads as zero. */
  function CountIn(u: U.Users, h: string, id: string): int {
    if h in u && id in u[h] then u[h][id] else 0
  }

  predicate IsCounted(u: U.Users, h: string, id: string) {
    h in u && id in u[h]
  }

  /** Joins minus leaves. */
  function Balance(visits: seq<Visit>, h: string, id: string): int
    decreases |visits|
  {
    if visits == [] then 0
    else
      Balance(visits[..|visits| - 1], h, id)
      + if visits[|visits| - 1] == Joined(h, id) then 1 else if visits[|visits| - 1] == Left(h, id) then -1 else 0
  }

  /** Starting from `count`, the users never number less than none or more than an int32 holds. */
  predicate Plausible(count: int, visits: seq<Visit>, h: string, id: string)
    decreases |visits|
  {
    IsCount(count + Balance(visits, h, id)) && (visits != [] ==> Plausible(count, visits[..|visits| - 1], h, id))
  }

  /** One event concerns one session. */
  lemma OthersKeepTheirs(u: U.Users, v: Visit, h: string, id: string)
    requires v.host != h || v.id != id
    ensures CountIn(Noted(u, v), h, id) == CountIn(u, h, id) && (IsCounted(Noted(u, v), h, id) <==> IsCounted(u, h, id))
  {
    if v.Ended? {
      ForgetsOne(u, v.host, v.id, h, id);
    } else {
      BumpsOne(u, v.host, v.id, if v.Joined? then 1 else -1, h, id);
    }
  }

  lemma BumpsOne(u: U.Users, host: string, session: string, delta: int, h: string, id: string)
    requires host != h || session != id
    ensures var u' := U.Bump(u, host, session, delta);
            CountIn(u', h, id) == CountIn(u, h, id) && (IsCounted(u', h, id) <==> IsCounted(u, h, id))
  {
    var u' := U.Bump(u, host, session, delta);
    if host != h {
      assert (h in u' <==> h in u) && (h in u ==> u'[h] == u[h]);
    } else if host != "" && session != "" {
      assert u'.Keys == u.Keys + {h};
      assert id in u'[h] <==> h in u && id in u[h];
    }
  }

  lemma ForgetsOne(u: U.Users, host: string, session: string, h: string, id: string)
    requires host != h || session != id
    ensures var u' := U.Forget(u, host, session);
            CountIn(u', h, id) == CountIn(u, h, id) && (IsCounted(u', h, id) <==> IsCounted(u, h, id))
  {
    if host == h && h in u {
      assert id in u[h] - {session} <==> id in u[h];
      assert u[h] - {session} == map[] ==> id !in u[h];
    }
  }

  /**
   However the visits of other sessions and hosts mix in: a session's count is joins minus leaves
   from where it began.
   */
  lemma {:induction false} CountsVisits(u: U.Users, visits: seq<Visit>, h: string, id: string)
    requires h != "" && id != "" && Ended(h, id) !in visits && Plausible(CountIn(u, h, id), visits, h, id)
    ensures CountIn(UsersAfter(u, visits), h, id) == CountIn(u, h, id) + Balance(visits, h, id)
    decreases |visits|
  {
    if visits != [] {
      var before, v := visits[..|visits| - 1], visits[|visits| - 1];
      CountsVisits(u, before, h, id);
      assert v in visits;
      if v.host != h || v.id != id {
        OthersKeepTheirs(UsersAfter(u, before), v, h, id);
      }
    }
  }

  /**
   Nobody leaves an empty session, one user more than an int32 holds empties it, an end
   forgets it, and events without a host or session count for nothing.
   */
  lemma CountLimits(u: U.Users, h: string, id: string)
    ensures h != "" && id != "" && CountIn(u, h, id) == 0 ==>
              IsCounted(Noted(u, Left(h, id)), h, id) && CountIn(Noted(u, Left(h, id)), h, id) == 0
    ensures h != "" && id != "" && CountIn(u, h, id) == 0x7FFF_FFFF ==> CountIn(Noted(u, Joined(h, id)), h, id) == 0
    ensures !IsCounted(Noted(u, Ended(h, id)), h, id)
    ensures h == "" || id == "" ==> Noted(u, Joined(h, id)) == u && Noted(u, Left(h, id)) == u
  {
  }

  // ---------------------------------------------------------------- the cached snapshots

  /** The cache after events of several hosts, handled one after the other. */
  function CacheAfter(c: C.Cache, evs: seq<(C.HostId, R.HostEvent)>): C.Cache
    decreases |evs|
  {
    if evs == [] then c
    else
      var before := CacheAfter(c, evs[..|evs| - 1]);
      C.Apply(before, R.EventOp(before, evs[|evs| - 1].0, evs[|evs| - 1].1))
  }

  function Visitors(evs: seq<(C.HostId, R.HostEvent)>, id: C.SessionId): int
    decreases |evs|
  {
    if evs == [] then 0
    else
      Visitors(evs[..|evs| - 1], id)
      + if evs[|evs| - 1].1 == R.UserJoined(id) then 1 else if evs[|evs| - 1].1 == R.UserLeft(id) then -1 else 0
  }

  predicate PlausibleVisitors(count: int, evs: seq<(C.HostId, R.HostEvent)>, id: C.SessionId)
    decreases |evs|
  {
    IsCount(count + Visitors(evs, id)) && (evs != [] ==> PlausibleVisitors(count, evs[..|evs| - 1], id))
  }

  /** The address the session's world was last saved to, `url` if it was not. */
  function SavedTo(url: string, evs: seq<(C.HostId, R.HostEvent)>, id: C.SessionId): string
    decreases |evs|
  {
    if evs == [] then url
    else match evs[|evs| - 1].1
      case WorldSaved(x, to) => if x == id && to != "" then to else SavedTo(url, evs[..|evs| - 1], id)
      case _ => SavedTo(url, evs[..|evs| - 1], id)
  }

  /** The event neither ends the session nor reports its whole state. */
  predicate OnlyPatches(ev: R.HostEvent, id: C.SessionId) {
    ev != R.SessionEnded(id) && (ev.ParametersChanged? && ev.id == id ==> ev.snapshot.None?)
  }

  ghost predicate AllPatch(evs: seq<(C.HostId, R.HostEvent)>, id: C.SessionId) {
    forall i :: 0 <= i < |evs| ==> OnlyPatches(evs[i].1, id)
  }

  /**
   From one report of a session to the next, whatever other events there are: its cached
   snapshot is that report, but for the users who came and went and the world last saved.
   */
  lemma {:induction false} SnapshotFollowsEvents(c: C.Cache, evs: seq<(C.HostId, R.HostEvent)>, id: C.SessionId)
    requires id in c && AllPatch(evs, id) && PlausibleVisitors(c[id].snapshot.usersCount, evs, id)
    ensures id in CacheAfter(c, evs)
    ensures var was := c[id].snapshot;
            CacheAfter(c, evs)[id].snapshot
            == was.(usersCount := was.usersCount + Visitors(evs, id), worldUrl := SavedTo(was.worldUrl, evs, id))
    decreases |evs|
  {
    if evs != [] {
      var before := evs[..|evs| - 1];
      assert OnlyPatches(evs[|evs| - 1].1, id);
      SnapshotFollowsEvents(c, before, id);
    }
  }

  /**
   A report replaces the snapshot, under the host it comes from; an end removes it; and nobody
   leaves an empty session.
   */
  lemma ReportReplaces(c: C.Cache, h: C.HostId, id: C.SessionId, snapshot: C.Snapshot)
    ensures CacheAfter(c, [(h, R.ParametersChanged(id, Some(snapshot)))]) == c[id := C.Entry(h, snapshot)]
    ensures CacheAfter(c, [(h, R.SessionEnded(id))]) == c - {id}
    ensures id in c && c[id].snapshot.usersCount == 0 ==>
              CacheAfter(c, [(h, R.UserLeft(id))]) == c[id := C.Entry(h, c[id].snapshot)]
  {
    var one := [(h, R.ParametersChanged(id, Some(snapshot)))];
    assert one[..0] == [] && [(h, R.SessionEnded(id))][..0] == [] && [(h, R.UserLeft(id))][..0] == [];
    assert CacheAfter(c, []) == c;
  }
}
