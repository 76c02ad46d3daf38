/**
 The state HostUpgradeOrchestrator (worker/host_upgrade_orchestrator.go) keeps under
 `mu`: the drain table, the user-count cache and the reconcile lock table.  Each
 function is what one critical section does to one of them.
 */
module UpgradeState {
  import opened Wrappers
  import opened SessionTable

  type Tag = string
  /** The startup config and the rest of the restart parameters: captured once, never looked into. */
  type Snapshot = string
  /** Identity of a *drainState. */
  type EntryId = nat
  /** Identity of a *sync.Mutex of the reconcile lock table. */
  type LockId = nat

  const MAX_RESTART_ATTEMPTS: nat := 5

  datatype Entry = Entry(host: HostId, tag: Tag, snapshot: Snapshot, attempts: nat)

  /** drainTargets and the entries it has ever pointed to. */
  datatype Drain = Drain(targets: map<HostId, EntryId>, entries: map<EntryId, Entry>, next: EntryId)

  type Counts = map<SessionId, int>
  type Users = map<HostId, Counts>

  datatype Locks = Locks(table: map<HostId, LockId>, next: LockId)

  function Enroll(d: Drain, h: HostId, tag: Tag, snapshot: Snapshot): Drain {
    if h in d.targets then d
    else Drain(d.targets[h := d.next], d.entries[d.next := Entry(h, tag, snapshot, 0)], d.next + 1)
  }

  function Leave(d: Drain, h: HostId): Drain {
    d.(targets := d.targets - {h})
  }

  /** The attempt a failed restart adds makes the host give up. */
  predicate GivesUp(d: Drain, h: HostId) {
    h in d.targets && d.targets[h] in d.entries && d.entries[d.targets[h]].attempts + 1 >= MAX_RESTART_ATTEMPTS
  }

  function CountAttempt(d: Drain, h: HostId): Drain {
    if h !in d.targets || d.targets[h] !in d.entries then d
    else d.(entries := d.entries[d.targets[h] :=
                                 d.entries[d.targets[h]].(attempts := d.entries[d.targets[h]].attempts + 1)])
  }

  function RecordFailure(d: Drain, h: HostId): Drain {
    if GivesUp(d, h) then Leave(CountAttempt(d, h), h) else CountAttempt(d, h)
  }

  function LockFor(l: Locks, h: HostId): Locks {
    if h in l.table then l else Locks(l.table[h := l.next], l.next + 1)
  }

  function Cached(u: Users, h: HostId, id: SessionId): Option<int> {
    if h in u && id in u[h] then Some(u[h][id]) else None
  }

  function Store(u: Users, h: HostId, id: SessionId, count: int): Users {
    u[h := (if h in u then u[h] else map[])[id := count]]
  }

  function Bump(u: Users, h: HostId, id: SessionId, delta: int): Users {
    if h == "" || id == "" then u
    else Store(u, h, id, BumpedCount(if Cached(u, h, id).Some? then Cached(u, h, id).value else 0, delta))
  }

  function Forget(u: Users, h: HostId, id: SessionId): Users {
    if h !in u then u
    else if u[h] - {id} == map[] then u - {h}
    else u[h := u[h] - {id}]
  }
}
