/**
 SessionLifecycleHandler (worker/session_lifecycle_handler.go): one host event
 turned into guarded statements on the sessions table.  The specification splits
 every event into its two database calls, because other hosts' stream goroutines
 run between them.
 */
module SessionLifecycle {
  import opened Wrappers
  import opened SessionTable

  datatype Payload =
    | SessionStarted(id: SessionId, name: string)
    | SessionEnded(id: SessionId)
    | OtherPayload

  /** `at` is occurred_at, which a malformed event lacks. */
  datatype HostEvent = HostEvent(payload: Payload, at: Option<Time>)

  /** handleSessionEnded gives up after its first call: unknown session, other owner, or an end before the start. */
  predicate EndSkipped(rows: Rows, host: HostId, id: SessionId, at: Time) {
    id !in rows || rows[id].hostId != host || (rows[id].startedAt.Some? && at < rows[id].startedAt.value)
  }

  /** The whole handler, when nothing runs between its calls. */
  function Handle(rows: Rows, hosts: Hosts, host: HostId, ev: HostEvent): Rows {
    if ev.at.None? then rows
    else match ev.payload
      case SessionStarted(id, name) =>
        ApplyStarted(InsertFromEvent(rows, hosts, id, host, name, ev.at.value), id, host, name, ev.at.value)
      case SessionEnded(id) =>
        if EndSkipped(rows, host, id, ev.at.value) then rows else ApplyEnded(rows, id, host, ev.at.value)
      case OtherPayload => rows
  }

  class SessionLifecycleHandler {
    const repo: SessionRepository

    constructor (repo: SessionRepository)
      ensures this.repo == repo
    {
      this.repo := repo;
    }

    method HandleHostEvent(host: HostId, ev: HostEvent)
      modifies repo`rows
      ensures repo.rows == Handle(old(repo.rows), repo.hosts, host, ev)
    {
      if ev.at.None? {
        return;
      }
      match ev.payload {
        case SessionStarted(id, name) => HandleSessionStarted(host, id, name, ev.at.value);
        case SessionEnded(id) => HandleSessionEnded(host, id, ev.at.value);
        case OtherPayload =>
      }
    }

    method HandleSessionStarted(host: HostId, id: SessionId, name: string, at: Time)
      modifies repo`rows
      ensures repo.rows == Handle(old(repo.rows), repo.hosts, host, HostEvent(SessionStarted(id, name), Some(at)))
    {
      var _ := repo.InsertSessionFromEvent(id, host, name, at);
      var _ := repo.ApplySessionStarted(id, host, name, at);
    }

    method HandleSessionEnded(host: HostId, id: SessionId, at: Time)
      modifies repo`rows
      ensures repo.rows == Handle(old(repo.rows), repo.hosts, host, HostEvent(SessionEnded(id), Some(at)))
    {
      var existing := repo.Get(id);
      if existing.None? {
        return;
      }
      if existing.value.hostId != host {
        return;
      }
      if existing.value.startedAt.Some? && at < existing.value.startedAt.value {
        return;
      }
      var _ := repo.ApplySessionEnded(id, host, at);
    }
  }
}
