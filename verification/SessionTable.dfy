/**
 The `sessions` table and the statements of db/sessions.sql.go that the event
 pipeline issues.  Each statement is one atomic guarded update of a map of rows;
 the specification functions say which rows change, and `SessionRepository` runs
 them in place.
 */
module SessionTable {
  import opened Wrappers

  type SessionId = string
  type HostId = string
  type GroupId = string
  type Time = nat

  datatype Status = UNKNOWN | STARTING | RUNNING | ENDED | CRASHED

  /** A JSON object of startup parameters: its keys and what they are set to. */
  type Parameters = map<string, string>

  datatype Row = Row(
    name: string,
    status: Status,
    startedAt: Option<Time>,
    endedAt: Option<Time>,
    hostId: HostId,
    createdBy: Option<string>,
    memo: Option<string>,
    startupParameters: Parameters,
    autoUpgrade: bool,
    groupId: GroupId)

  type Rows = map<SessionId, Row>

  /** The hosts table, as far as the session statements read it: a host and its group. */
  type Hosts = map<HostId, GroupId>

  const EMPTY_PARAMETERS: Parameters := map[]

  /** The parameters a host reports changes of; the name is also a column of its own. */
  const SYNCED: set<string> := {
    "name", "description", "maxUsers", "accessLevel", "hideFromPublicListing", "awayKickMinutes",
    "idleRestartIntervalSeconds", "saveOnExit", "autoSaveIntervalSeconds", "autoSleep", "tags"
  }

  /** Two spellings of the world to load; with both set the parameters cannot be read back. */
  const LOAD_URL := "loadWorldUrl"
  const LOAD_PRESET := "loadWorldPresetName"

  /** A stored start time is older than `t`; SQL NULL counts as older than everything. */
  predicate Before(stored: Option<Time>, t: Time) {
    stored.None? || stored.value < t
  }

  /** INSERT ... SELECT FROM hosts ... ON CONFLICT DO NOTHING. */
  function InsertFromEvent(rows: Rows, hosts: Hosts, id: SessionId, host: HostId, name: string, at: Time): Rows {
    if id in rows || host !in hosts then rows
    else rows[id := Row(name, RUNNING, Some(at), None, host, None, None, EMPTY_PARAMETERS, false, hosts[host])]
  }

  function ApplyStarted(rows: Rows, id: SessionId, host: HostId, name: string, at: Time): Rows {
    if id in rows && Before(rows[id].startedAt, at) then
      rows[id := rows[id].(name := name, status := RUNNING, startedAt := Some(at), endedAt := None, hostId := host)]
    else rows
  }

  function ApplyEnded(rows: Rows, id: SessionId, host: HostId, at: Time): Rows {
    if id in rows && rows[id].hostId == host && Before(rows[id].endedAt, at) then
      rows[id := rows[id].(status := ENDED, endedAt := Some(at))]
    else rows
  }

  function DowngradeIfRunning(rows: Rows, id: SessionId): Rows {
    if id in rows && rows[id].status == RUNNING then rows[id := rows[id].(status := UNKNOWN)] else rows
  }

  /** INSERT ... ON CONFLICT DO UPDATE: the first non-NULL creator and the group of the first insert stay. */
  function Upsert(rows: Rows, id: SessionId, row: Row): Rows {
    if id in rows then
      rows[id := row.(createdBy := if rows[id].createdBy.Some? then rows[id].createdBy else row.createdBy,
                      groupId := rows[id].groupId)]
    else rows[id := row]
  }

  /** UPDATE ... SET startup_parameters = startup_parameters || ...: all synced parameters are overwritten. */
  function SyncParameters(rows: Rows, id: SessionId, name: string, reported: Parameters): Rows {
    if id in rows then rows[id := rows[id].(name := name, startupParameters := rows[id].startupParameters + reported)]
      else rows
  }

  /** The parameters once a world was saved: a preset gives way to the address. */
  function WithLoadUrl(p: Parameters, url: string): Parameters {
    (p - {LOAD_PRESET})[LOAD_URL := url]
  }

  function SaveWorldUrl(rows: Rows, id: SessionId, url: string): Rows {
    if id in rows then rows[id := rows[id].(startupParameters := WithLoadUrl(rows[id].startupParameters, url))]
      else rows
  }

  /** The columns no lifecycle event may touch. */
  predicate SameUserColumns(a: Row, b: Row) {
    a.createdBy == b.createdBy && a.memo == b.memo && a.startupParameters == b.startupParameters &&
    a.autoUpgrade == b.autoUpgrade && a.groupId == b.groupId
  }

  class SessionRepository {
    var rows: Rows
    var hosts: Hosts

    constructor (hosts: Hosts)
      ensures this.rows == map[] && this.hosts == hosts
    {
      this.rows := map[];
      this.hosts := hosts;
    }

    method Get(id: SessionId) returns (row: Option<Row>)
      ensures row == if id in rows then Some(rows[id]) else None
    {
      if id in rows {
        return Some(rows[id]);
      }
      return None;
    }

    method InsertSessionFromEvent(id: SessionId, host: HostId, name: string, at: Time) returns (affected: nat)
      modifies this`rows
      ensures rows == InsertFromEvent(old(rows), hosts, id, host, name, at)
      ensures affected == if rows == old(rows) then 0 else 1
    {
      affected := 0;
      if host in hosts && id !in rows {
        var inserted := Row(name, RUNNING, Some(at), None, host, None, None, EMPTY_PARAMETERS, false, hosts[host]);
        rows := rows[id := inserted];
        affected := 1;
        assert id in rows && id !in old(rows);
      }
    }

    method ApplySessionStarted(id: SessionId, host: HostId, name: string, at: Time) returns (applied: bool)
      modifies this`rows
      ensures rows == ApplyStarted(old(rows), id, host, name, at)
      ensures applied <==> id in old(rows) && Before(old(rows)[id].startedAt, at)
    {
      applied := false;
      if id in rows {
        var row := rows[id];
        if row.startedAt.None? || row.startedAt.value < at {
          rows := rows[id := row.(name := name, status := RUNNING, startedAt := Some(at), endedAt := None,
                                  hostId := host)];
          applied := true;
        }
      }
    }

    method ApplySessionEnded(id: SessionId, host: HostId, at: Time) returns (applied: bool)
      modifies this`rows
      ensures rows == ApplyEnded(old(rows), id, host, at)
      ensures applied <==> id in old(rows) && old(rows)[id].hostId == host && Before(old(rows)[id].endedAt, at)
    {
      applied := false;
      if id in rows {
        var row := rows[id];
        if row.hostId == host && (row.endedAt.None? || row.endedAt.value < at) {
          rows := rows[id := row.(status := ENDED, endedAt := Some(at))];
          applied := true;
        }
      }
    }

    method DowngradeSessionToUnknownIfRunning(id: SessionId)
      modifies this`rows
      ensures rows == DowngradeIfRunning(old(rows), id)
    {
      if id in rows && rows[id].status == RUNNING {
        rows := rows[id := rows[id].(status := UNKNOWN)];
      }
    }

    method ApplySessionParametersChanged(id: SessionId, name: string, reported: Parameters)
      modifies this`rows
      ensures rows == SyncParameters(old(rows), id, name, reported)
    {
      if id in rows {
        var row := rows[id];
        rows := rows[id := row.(name := name, startupParameters := row.startupParameters + reported)];
      }
    }

    method UpdateSessionAfterWorldSaved(id: SessionId, url: string)
      modifies this`rows
      ensures rows == SaveWorldUrl(old(rows), id, url)
    {
      if id in rows {
        var row := rows[id];
        rows := rows[id := row.(startupParameters := (row.startupParameters - {LOAD_PRESET})[LOAD_URL := url])];
      }
    }

    method DeleteSession(id: SessionId)
      modifies this`rows
      ensures rows == old(rows) - {id}
    {
      rows := rows - {id};
    }

    /** UpsertSession. */
    method Save(id: SessionId, row: Row)
      modifies this`rows
      ensures rows == Upsert(old(rows), id, row)
      ensures id in rows && rows == old(rows)[id := rows[id]]
      ensures rows[id] == row.(createdBy := rows[id].createdBy, groupId := rows[id].groupId)
      ensures id in old(rows) ==>
                && rows[id].groupId == old(rows)[id].groupId
                && rows[id].createdBy == if old(rows)[id].createdBy.Some? then old(rows)[id].createdBy
                   else row.createdBy
      ensures id !in old(rows) ==> rows[id] == row
    {
      if id in rows {
        var stored := rows[id];
        var createdBy := if stored.createdBy.Some? then stored.createdBy else row.createdBy;
        rows := rows[id := row.(createdBy := createdBy, groupId := stored.groupId)];
      } else {
        rows := rows[id := row];
      }
    }
  }
}
