/**
 SessionStateSyncHandler (worker/session_state_sync_handler.go): host events patch the
 cached snapshots and the stored startup parameters; when a stream starts over, the
 cache is rebuilt from the host's own list and stored sessions the host no longer
 reports are demoted.
 */
module StreamReset {
  import opened Wrappers
  import opened SessionStateCache
  import T = SessionTable

  datatype HostEvent =
    | ParametersChanged(id: SessionId, snapshot: Option<Snapshot>)
    | WorldSaved(id: SessionId, worldUrl: string)
    | UserJoined(id: SessionId)
    | UserLeft(id: SessionId)
    | SessionEnded(id: SessionId)
    | OtherEvent

  /** The snapshot an event leaves cached for its session; None when it leaves the entry alone. */
  function Patched(c: Cache, ev: HostEvent): Option<Snapshot> {
    match ev
    case ParametersChanged(_, snapshot) => snapshot
    case WorldSaved(id, url) => if url == "" || id !in c then None else Some(c[id].snapshot.(worldUrl := url))
    case UserJoined(id) =>
      if id !in c then None else Some(c[id].snapshot.(usersCount := BumpedCount(c[id].snapshot.usersCount, 1)))
    case UserLeft(id) =>
      if id !in c then None else Some(c[id].snapshot.(usersCount := BumpedCount(c[id].snapshot.usersCount, -1)))
    case _ => None
  }

  function EventOp(c: Cache, host: HostId, ev: HostEvent): Op {
    match ev
    case SessionEnded(id) => DeleteOp(id)
    case OtherEvent => SetOp(host, "", None)
    case _ => SetOp(host, ev.id, Patched(c, ev))
  }

  /** What a reported snapshot says of the synced parameters; a field it leaves out has its zero value, written "". */
  function Reported(s: Snapshot): T.Parameters {
    map k | k in T.SYNCED :: if k == "name" then s.name else if k in s.settings then s.settings[k] else ""
  }

  /** The update of the table an event asks for. */
  function EventRows(rows: T.Rows, ev: HostEvent): T.Rows {
    match ev
    case ParametersChanged(id, Some(snapshot)) => T.SyncParameters(rows, id, snapshot.name, Reported(snapshot))
    case WorldSaved(id, url) => if url == "" then rows else T.SaveWorldUrl(rows, id, url)
    case _ => rows
  }

  /** The cache after a reset with nothing running in between. */
  function ResetCache(c: Cache, host: HostId, live: map<SessionId, Snapshot>): Cache {
    map id | id in c.Keys + live.Keys && (id in live || c[id].host != host) :: if id in live then
        Entry(host, live[id]) else c[id]
  }

  /** The sessions a host reports, by id; a repeated id stands for its last entry. */
  function LiveOf(listed: seq<Snapshot>): map<SessionId, Snapshot> {
    if listed == [] then map[] else LiveOf(listed[..|listed| - 1])[listed[|listed| - 1].id := listed[|listed| - 1]]
  }

  /** The host's list says nothing further about the session of entry i. */
  predicate LastListed(listed: seq<Snapshot>, i: int) {
    0 <= i < |listed| && forall j :: i < j < |listed| ==> listed[j].id != listed[i].id
  }

  /** Every listed session, with users or without, is among them, as its last entry says ... */
  lemma {:induction false} LiveAsLastListed(listed: seq<Snapshot>, i: int)
    requires LastListed(listed, i)
    ensures listed[i].id in LiveOf(listed) && LiveOf(listed)[listed[i].id] == listed[i]
    decreases |listed|
  {
    var m := |listed| - 1;
    if i < m {
      assert forall j :: i <= j < m ==> listed[..m][j] == listed[j];
      LiveAsLastListed(listed[..m], i);
    }
  }

  /** ... and no other is. */
  lemma {:induction false} LiveIsListed(listed: seq<Snapshot>, id: SessionId) returns (i: int)
    requires id in LiveOf(listed)
    ensures LastListed(listed, i) && listed[i].id == id
    decreases |listed|
  {
    var m := |listed| - 1;
    i := m;
    if listed[m].id != id {
      i := LiveIsListed(listed[..m], id);
      assert forall j :: i <= j < m ==> listed[..m][j] == listed[j];
    }
  }

  lemma {:induction false} ListedIsLive(listed: seq<Snapshot>, i: nat)
    requires i < |listed|
    ensures listed[i].id in LiveOf(listed)
    decreases |listed|
  {
    var m := |listed| - 1;
    if i < m {
      assert listed[..m][i] == listed[i];
      ListedIsLive(listed[..m], i);
    }
  }

  /** The stored sessions a reset demotes: running on the host as far as the table knows, and not reported. */
  predicate Missing(rows: T.Rows, host: HostId, live: set<SessionId>, id: SessionId) {
    id in rows && rows[id].hostId == host && rows[id].status == T.RUNNING && id !in live
  }

  /** The statement for one of `failing` fails; that is logged and the rest goes on. */
  function ResetRows(rows: T.Rows, host: HostId, live: set<SessionId>, failing: set<SessionId>): T.Rows {
    map id | id in rows :: if Missing(rows, host, live, id) && id !in failing then rows[id].(status := T.UNKNOWN)
      else rows[id]
  }

  /** The host owns what it lists, each session as its last entry says, and nothing else. */
  ghost predicate OwnsListed(c: Cache, host: HostId, listed: seq<Snapshot>) {
    && (forall i :: LastListed(listed, i) ==> listed[i].id in c && c[listed[i].id] == Entry(host, listed[i]))
    && (forall id :: id in c && c[id].host == host ==> exists i :: LastListed(listed, i) && listed[i].id == id)
  }

  predicate IsListed(listed: seq<Snapshot>, id: SessionId) {
    exists i :: 0 <= i < |listed| && listed[i].id == id
  }

  /** Exactly the host's running rows that it does not list, and whose demotion works, become UNKNOWN. */
  ghost predicate DemotesUnlisted(rows: T.Rows, rows': T.Rows, host: HostId, listed: seq<Snapshot>,
                                  failing: set<SessionId>) {
    && rows'.Keys == rows.Keys
    && forall id :: id in rows ==>
         rows'[id] == if rows[id].hostId == host && rows[id].status == T.RUNNING && id !in failing
           && !IsListed(listed, id)
                      then rows[id].(status := T.UNKNOWN) else rows[id]
  }

  lemma ResetByTheList(c: Cache, rows: T.Rows, host: HostId, listed: seq<Snapshot>, failing: set<SessionId>)
    ensures OwnsListed(ResetCache(c, host, LiveOf(listed)), host, listed)
    ensures DemotesUnlisted(rows, ResetRows(rows, host, LiveOf(listed).Keys, failing), host, listed, failing)
  {
    var live := LiveOf(listed);
    forall i | LastListed(listed, i)
      ensures listed[i].id in live && live[listed[i].id] == listed[i]
    {
      LiveAsLastListed(listed, i);
    }
    forall id | id in live
      ensures exists i :: LastListed(listed, i) && listed[i].id == id
    {
      var i := LiveIsListed(listed, id);
    }
    forall i | 0 <= i < |listed|
      ensures listed[i].id in live
    {
      ListedIsLive(listed, i);
    }
  }

  lemma PruneCompletesReset(was: Cache, c: Cache, host: HostId, live: map<SessionId, Snapshot>)
    requires forall id :: id in c <==> id in was || id in live
    requires forall id :: id in c ==> c[id] == if id in live then Entry(host, live[id]) else was[id]
    ensures Apply(c, PruneOp(host, live.Keys)) == ResetCache(was, host, live)
  {
  }

  class SessionStateSyncHandler {
    const repo: T.SessionRepository
    const cache: MemoryCache

    constructor (repo: T.SessionRepository, cache: MemoryCache)
      ensures this.repo == repo && this.cache == cache
    {
      this.repo := repo;
      this.cache := cache;
    }

    /** `stored` says whether the update of the table, if there is one, works. */
    method HandleHostEvent(host: HostId, ev: HostEvent, stored: bool)
      requires cache.Valid()
      modifies cache, repo`rows
      ensures cache.Valid() && cache.sessions == Apply(old(cache.sessions), EventOp(old(cache.sessions), host, ev))
      ensures repo.rows == if stored then EventRows(old(repo.rows), ev) else old(repo.rows)
    {
      match ev {
        case ParametersChanged(id, snapshot) => ApplyParametersChanged(host, id, snapshot, stored);
        case WorldSaved(id, url) => ApplyWorldSaved(host, id, url, stored);
        case UserJoined(id) => BumpUsersCount(host, id, 1);
        case UserLeft(id) => BumpUsersCount(host, id, -1);
        case SessionEnded(id) => cache.Delete(id);
        case OtherEvent =>
      }
    }

    method ApplyParametersChanged(host: HostId, id: SessionId, snapshot: Option<Snapshot>, stored: bool)
      requires cache.Valid()
      modifies cache, repo`rows
      ensures cache.Valid() && cache.sessions == Apply(old(cache.sessions), SetOp(host, id, snapshot))
      ensures repo.rows == if stored then EventRows(old(repo.rows), ParametersChanged(id, snapshot)) else old(repo.rows)
    {
      if snapshot.None? {
        return;
      }
      cache.Set(host, id, snapshot);
      if stored {
        repo.ApplySessionParametersChanged(id, snapshot.value.name, Reported(snapshot.value));
      }
    }

    method ApplyWorldSaved(host: HostId, id: SessionId, worldUrl: string, stored: bool)
      requires cache.Valid()
      modifies cache, repo`rows
      ensures cache.Valid()
      ensures repo.rows == if stored then EventRows(old(repo.rows), WorldSaved(id, worldUrl)) else old(repo.rows)
      ensures cache.sessions == Apply(old(cache.sessions),
                                      SetOp(host, id, Patched(old(cache.sessions), WorldSaved(id, worldUrl))))
    {
      if worldUrl == "" {
        return;
      }
      var existing := cache.Get(id);
      if existing.Some? {
        cache.Set(host, id, Some(existing.value.(worldUrl := worldUrl)));
      }
      if stored {
        repo.UpdateSessionAfterWorldSaved(id, worldUrl);
      }
    }

    method BumpUsersCount(host: HostId, id: SessionId, delta: int)
      requires cache.Valid() && (delta == 1 || delta == -1)
      modifies cache
      ensures cache.Valid()
      ensures cache.sessions == Apply(old(cache.sessions), SetOp(host, id, Patched(old(cache.sessions),
                                        if delta == 1 then UserJoined(id) else UserLeft(id))))
    {
      var existing := cache.Get(id);
      if existing.None? {
        return;
      }
      var count := Int32(existing.value.usersCount + delta);
      cache.Set(host, id, Some(existing.value.(usersCount := if count > 0 then count else 0)));
    }

    method LiveSessions(listed: seq<Snapshot>) returns (live: map<SessionId, Snapshot>)
      ensures live == LiveOf(listed)
    {
      live := map[];
      for i := 0 to |listed|
        invariant live == LiveOf(listed[..i])
      {
        live := live[listed[i].id := listed[i]];
        assert listed[..i + 1][..i] == listed[..i];
      }
      assert listed[..|listed|] == listed;
    }

    /**
     `listed` is what the host's ListSessions answers, None when the table, the client
     or the call fails; the demotions of `failing` fail.  With nothing running in between:
     the host owns exactly the listed entries, with the listed snapshots; other hosts keep their unlisted ones;
     and in the table only unreported running sessions of the host change, to UNKNOWN.
     */
    method HandleHostEventStreamReset(host: HostId, listed: Option<seq<Snapshot>>, failing: set<SessionId>)
      requires cache.Valid()
      modifies cache, repo`rows
      ensures cache.Valid()
      ensures listed.None? ==> cache.sessions == old(cache.sessions) && repo.rows == old(repo.rows)
      ensures listed.Some? ==>
                var live := LiveOf(listed.value);
                && (forall id :: id in live ==> id in cache.sessions && cache.sessions[id] == Entry(host, live[id]))
                && (forall id :: id in cache.sessions && id !in live ==> cache.sessions[id].host != host)
                && (forall id :: id in old(cache.sessions) && id !in live && old(cache.sessions)[id].host != host ==>
                      id in cache.sessions && cache.sessions[id] == old(cache.sessions)[id])
                && (forall id :: id in cache.sessions && id !in live ==> id in old(cache.sessions))
                && cache.sessions == ResetCache(old(cache.sessions), host, live)
                && repo.rows == ResetRows(old(repo.rows), host, live.Keys, failing)
      // The same by the list itself.
      ensures listed.Some? ==> OwnsListed(cache.sessions, host, listed.value)
      ensures listed.Some? ==> DemotesUnlisted(old(repo.rows), repo.rows, host, listed.value, failing)
    {
      var running := ListRunning(host);
      if listed.None? {
        return;
      }
      var live := LiveSessions(listed.value);
      ResetByTheList(cache.sessions, repo.rows, host, listed.value, failing);
      RebuildCache(host, live);
      DemoteMissing(host, running, live.Keys, failing);
    }

    method ListRunning(host: HostId) returns (running: set<SessionId>)
      ensures running == set id | id in repo.rows && repo.rows[id].hostId == host && repo.rows[id].status == T.RUNNING
    {
      running := set id | id in repo.rows && repo.rows[id].hostId == host && repo.rows[id].status == T.RUNNING;
    }

    method RebuildCache(host: HostId, live: map<SessionId, Snapshot>)
      requires cache.Valid()
      modifies cache
      ensures cache.Valid()
      ensures cache.sessions == ResetCache(old(cache.sessions), host, live)
    {
      ghost var was := cache.sessions;
      var todo := live.Keys;
      while todo != {}
        invariant cache.Valid() && todo <= live.Keys
        invariant forall id :: id in cache.sessions <==> id in was || (id in live && id !in todo)
        invariant forall id :: id in cache.sessions ==>
                    cache.sessions[id] == if id in live && id !in todo then Entry(host, live[id]) else was[id]
        decreases todo
      {
        var id :| id in todo;
        cache.Set(host, id, Some(live[id]));
        todo := todo - {id};
      }
      PruneCompletesReset(was, cache.sessions, host, live);
      cache.PruneHost(host, live.Keys);
    }

    method DemoteMissing(host: HostId, running: set<SessionId>, live: set<SessionId>, failing: set<SessionId>)
      requires running == set id | id in repo.rows && repo.rows[id].hostId == host && repo.rows[id].status == T.RUNNING
      modifies repo`rows
      ensures repo.rows == ResetRows(old(repo.rows), host, live, failing)
    {
      ghost var was := repo.rows;
      var todo := running;
      while todo != {}
        invariant todo <= running && repo.rows.Keys == was.Keys
        invariant forall id :: id in was ==>
                    repo.rows[id] ==
                    if id in running && id !in todo && id !in live && id !in failing then
                        was[id].(status := T.UNKNOWN) else was[id]
        decreases todo
      {
        var id :| id in todo;
        if id !in live && id !in failing {
          repo.DowngradeSessionToUnknownIfRunning(id);
        }
        todo := todo - {id};
      }
    }
  }

  // ---------------------------------------------------------------- the startup parameters over a run

  /** The stored parameters can be read back. */
  predicate LoadsOneWorld(p: T.Parameters) {
    !(T.LOAD_URL in p && T.LOAD_PRESET in p)
  }

  /** The table after events, in the order of their updates; the hosts they came from do not matter. */
  function RowsAfter(rows: T.Rows, evs: seq<HostEvent>): T.Rows
    decreases |evs|
  {
    if evs == [] then rows else EventRows(RowsAfter(rows, evs[..|evs| - 1]), evs[|evs| - 1])
  }

  /** What the event reports of the session. */
  function ReportOf(ev: HostEvent, id: SessionId): Option<Snapshot> {
    if ev.ParametersChanged? && ev.id == id then ev.snapshot else None
  }

  /** The address the event says the session's world was saved to. */
  function SaveOf(ev: HostEvent, id: SessionId): Option<string> {
    if ev.WorldSaved? && ev.id == id && ev.worldUrl != "" then Some(ev.worldUrl) else None
  }

  /** The last snapshot reported of a session. */
  function LastReport(evs: seq<HostEvent>, id: SessionId): Option<Snapshot>
    decreases |evs|
  {
    if evs == [] then None
    else if ReportOf(evs[|evs| - 1], id).Some? then ReportOf(evs[|evs| - 1], id)
    else LastReport(evs[..|evs| - 1], id)
  }

  /** The address its world was last saved to. */
  function LastSave(evs: seq<HostEvent>, id: SessionId): Option<string>
    decreases |evs|
  {
    if evs == [] then None
    else if SaveOf(evs[|evs| - 1], id).Some? then SaveOf(evs[|evs| - 1], id)
    else LastSave(evs[..|evs| - 1], id)
  }

  /** Parameters `p` are `base` with the report and the saved world put in, if there are any. */
  ghost predicate Edited(base: T.Parameters, p: T.Parameters, report: Option<Snapshot>, url: Option<string>) {
    && (forall k :: k in T.SYNCED && report.Some? ==>
          k in p && p[k] == if k == "name" then report.value.name
                            else if k in report.value.settings then report.value.settings[k] else "")
    && (url.Some? ==> T.LOAD_URL in p && p[T.LOAD_URL] == url.value && T.LOAD_PRESET !in p)
    && (forall k :: !(k in T.SYNCED && report.Some?) && !((k == T.LOAD_URL || k == T.LOAD_PRESET) && url.Some?) ==>
          (k in p <==> k in base) && (k in p ==> p[k] == base[k]))
  }

  lemma ReportEdits(base: T.Parameters, p: T.Parameters, report: Option<Snapshot>, url: Option<string>, s: Snapshot)
    requires Edited(base, p, report, url)
    ensures Edited(base, p + Reported(s), Some(s), url)
  {
    assert Reported(s).Keys == T.SYNCED;
    SyncedIsNotLoad();
  }

  lemma SaveEdits(base: T.Parameters, p: T.Parameters, report: Option<Snapshot>, url: Option<string>, u: string)
    requires Edited(base, p, report, url)
    ensures Edited(base, T.WithLoadUrl(p, u), report, Some(u))
  {
    SyncedIsNotLoad();
  }

  lemma EditStep(base: T.Parameters, rows: T.Rows, ev: HostEvent, id: SessionId, report: Option<Snapshot>,
                 url: Option<string>)
    requires id in rows && Edited(base, rows[id].startupParameters, report, url)
    ensures var rows' := EventRows(rows, ev);
            && id in rows'
            && Edited(base, rows'[id].startupParameters, if ReportOf(ev, id).Some? then ReportOf(ev, id) else report,
                      if SaveOf(ev, id).Some? then SaveOf(ev, id) else url)
  {
    var p := rows[id].startupParameters;
    match ev
    case ParametersChanged(_, Some(s)) => ReportEdits(base, p, report, url, s);
    case WorldSaved(_, u) => SaveEdits(base, p, report, url, u);
    case _ =>
  }

  /** Besides the parameters only the name changes, to the one reported; and they stay readable. */
  lemma RowStep(rows: T.Rows, ev: HostEvent, id: SessionId)
    requires id in rows
    ensures var rows' := EventRows(rows, ev);
            && id in rows'
            && (LoadsOneWorld(rows[id].startupParameters) ==> LoadsOneWorld(rows'[id].startupParameters))
            && rows'[id]
               == rows[id].(startupParameters := rows'[id].startupParameters, name := NameAfter(rows[id].name, ev, id))
  {
    SyncedIsNotLoad();
  }

  function NameAfter(name: string, ev: HostEvent, id: SessionId): string {
    if ReportOf(ev, id).Some? then ReportOf(ev, id).value.name else name
  }

  /**
   What a restart of the session gets: the parameters last reported and the world last
   saved, however reports and saves alternate; all other parameters are as they were,
   and the parameters stay readable.
   */
  lemma {:induction false} RestartGetsLastEdits(rows: T.Rows, evs: seq<HostEvent>, id: SessionId)
    requires id in rows
    ensures id in RowsAfter(rows, evs)
    ensures Edited(rows[id].startupParameters, RowsAfter(rows, evs)[id].startupParameters, LastReport(evs, id),
                   LastSave(evs, id))
    ensures LoadsOneWorld(rows[id].startupParameters) ==> LoadsOneWorld(RowsAfter(rows, evs)[id].startupParameters)
    ensures RowsAfter(rows, evs)[id] ==
            rows[id].(startupParameters := RowsAfter(rows, evs)[id].startupParameters,
                      name := if LastReport(evs, id).Some? then LastReport(evs, id).value.name else rows[id].name)
    decreases |evs|
  {
    if evs != [] {
      var before := evs[..|evs| - 1];
      RestartGetsLastEdits(rows, before, id);
      var base := rows[id].startupParameters;
      EditStep(base, RowsAfter(rows, before), evs[|evs| - 1], id, LastReport(before, id), LastSave(before, id));
      RowStep(RowsAfter(rows, before), evs[|evs| - 1], id);
    }
  }

  lemma SyncedIsNotLoad()
    ensures T.LOAD_URL !in T.SYNCED && T.LOAD_PRESET !in T.SYNCED
  {
  }
}
