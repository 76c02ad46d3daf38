/**
 HostUpgradeOrchestrator in place: the critical sections update its fields, and
 reconcileHost runs against recorded answers of the host, the session stopper and
 Restart.  Every run of reconcileHost is a run of one thread of UpgradeProtocol, so
 what is proved there about traces holds of the calls it makes.
 */
module UpgradeOrchestrator {
  import opened Wrappers
  import opened SessionTable
  import opened UpgradeState
  import P = UpgradeProtocol
  import V = UserCounts

  /** The answers one pass gets: None and a missing count are failed calls. */
  datatype Answers = Answers(
    running: Option<seq<SessionId>>,
    counts: map<SessionId, int>,
    stops: set<SessionId>,
    restart: bool)

  /** The cache does not vouch for users of the session, and the host, once asked, reports none. */
  predicate Vacant(u: Users, answers: Answers, h: HostId, id: SessionId) {
    !(Cached(u, h, id).Some? && Cached(u, h, id).value > 0) && id in answers.counts && answers.counts[id] <= 0
  }

  /** The same sessions of the host are vacant. */
  ghost predicate SameVacant(u: Users, u': Users, answers: Answers, h: HostId) {
    forall id :: Vacant(u', answers, h, id) <==> Vacant(u, answers, h, id)
  }

  lemma StoreKeepsVacant(u: Users, answers: Answers, h: HostId, id: SessionId)
    requires id in answers.counts && !(Cached(u, h, id).Some? && Cached(u, h, id).value > 0)
    ensures SameVacant(u, Store(u, h, id, answers.counts[id]), answers, h)
  {
  }

  lemma ForgetKeepsVacant(u: Users, answers: Answers, h: HostId, id: SessionId)
    requires !(Cached(u, h, id).Some? && Cached(u, h, id).value > 0)
    ensures SameVacant(u, Forget(u, h, id), answers, h)
  {
    forall x
      ensures Vacant(Forget(u, h, id), answers, h, x) <==> Vacant(u, answers, h, x)
    {
      assert h in u && x != id ==> (x in u[h] - {id} <==> x in u[h]);
    }
  }

  /** The session is stopped by the pass. */
  predicate Empties(u: Users, answers: Answers, h: HostId, id: SessionId) {
    Vacant(u, answers, h, id) && id in answers.stops
  }

  /** Every session of the pass goes. */
  predicate AllEmpty(u: Users, answers: Answers, h: HostId, sessions: seq<SessionId>) {
    forall i :: 0 <= i < |sessions| ==> Empties(u, answers, h, sessions[i])
  }

  /** The stops among the calls are exactly those of the vacant sessions. */
  ghost predicate StopsVacant(calls: seq<P.Event>, pass: nat, e: EntryId, u: Users, answers: Answers, h: HostId,
                              sessions: seq<SessionId>) {
    forall id :: P.StopCalled(pass, e, id) in calls <==> id in sessions && Vacant(u, answers, h, id)
  }

  lemma StopsAppend(calls: seq<P.Event>, turn: seq<P.Event>, pass: nat, e: EntryId, u: Users, u': Users,
                    answers: Answers, h: HostId,
                    sessions: seq<SessionId>, i: nat)
    requires i < |sessions| && SameVacant(u, u', answers, h)
    requires StopsVacant(calls, pass, e, u, answers, h, sessions[..i])
             && StopsVacant(turn, pass, e, u', answers, h, [sessions[i]])
    ensures StopsVacant(calls + turn, pass, e, u, answers, h, sessions[..i + 1])
    ensures AllEmpty(u, answers, h, sessions[..i + 1])
            <==> AllEmpty(u, answers, h, sessions[..i]) && Empties(u', answers, h, sessions[i])
  {
    assert sessions[..i + 1] == sessions[..i] + [sessions[i]];
    if AllEmpty(u, answers, h, sessions[..i + 1]) {
      assert Empties(u, answers, h, sessions[..i + 1][i]);
      assert forall j :: 0 <= j < i ==> sessions[..i][j] == sessions[..i + 1][j];
    }
  }

  ghost predicate NoRestart(calls: seq<P.Event>) {
    forall c :: c in calls ==> !c.RestartCalled?
  }

  /** The restart of an enrolled host: everything it is given comes from the drain entry. */
  function RestartOf(pass: nat, d: Drain, h: HostId): P.Event
    requires h in d.targets && d.targets[h] in d.entries
  {
    P.RestartCalled(pass, d.targets[h], h, d.entries[d.targets[h]].tag, d.entries[d.targets[h]].snapshot)
  }

  /** The calls of a pass over `sessions` and the drain table it leaves. */
  ghost predicate PassOutcome(pass: nat, u: Users, d: Drain, answers: Answers, h: HostId, sessions: seq<SessionId>,
                              calls: seq<P.Event>, d': Drain) {
    && h in d.targets && d.targets[h] in d.entries
    && StopsVacant(calls, pass, d.targets[h], u, answers, h, sessions)
    && (if AllEmpty(u, answers, h, sessions) then
          && calls != [] && calls[|calls| - 1] == RestartOf(pass, d, h) && NoRestart(calls[..|calls| - 1])
          && d' == (if answers.restart then Leave(d, h) else RecordFailure(d, h))
        else NoRestart(calls) && d' == d)
  }

  /**
   The same for a whole reconcile, which does nothing for a host that is not enrolled or whose
   sessions cannot be listed.
   */
  ghost predicate Outcome(pass: nat, u: Users, d: Drain, answers: Answers, h: HostId, calls: seq<P.Event>, d': Drain) {
    if h !in d.targets || answers.running.None? then calls == [] && d' == d
    else
      && calls != [] && calls[0] == P.Listed(pass, h, answers.running.value)
      && PassOutcome(pass, u, d, answers, h, answers.running.value, calls[1..], d')
  }

  class HostUpgradeOrchestrator {
    var drainTargets: map<HostId, EntryId>
    var entries: map<EntryId, Entry>
    var nextEntry: EntryId
    var sessionUsers: Users
    var reconcileLock: map<HostId, LockId>
    var nextLock: LockId

    constructor ()
      ensures Matches(P.INIT)
    {
      drainTargets, entries, nextEntry := map[], map[], 0;
      sessionUsers, reconcileLock, nextLock := map[], map[], 0;
    }

    function DrainOf(): Drain
      reads this
    {
      Drain(drainTargets, entries, nextEntry)
    }

    function LocksOf(): Locks
      reads this
    {
      Locks(reconcileLock, nextLock)
    }

    /** The fields hold what the protocol state holds. */
    ghost predicate Matches(s: P.State)
      reads this
    {
      DrainOf() == s.drain && sessionUsers == s.users && LocksOf() == s.locks
    }

    method IsHostDraining(h: HostId) returns (draining: bool)
      ensures draining <==> h in drainTargets
    {
      draining := h in drainTargets;
    }

    /** The check-and-insert at the end of enrollHost. */
    method EnrollIfAbsent(h: HostId, tag: Tag, snapshot: Snapshot)
      modifies this`drainTargets, this`entries, this`nextEntry
      ensures DrainOf() == Enroll(old(DrainOf()), h, tag, snapshot)
      ensures h in old(drainTargets) ==> drainTargets == old(drainTargets) && entries == old(entries)
      ensures h !in old(drainTargets) ==>
                && h in drainTargets && drainTargets == old(drainTargets)[h := drainTargets[h]]
                && drainTargets[h] == old(nextEntry) && nextEntry == old(nextEntry) + 1
                && entries == old(entries)[old(nextEntry) := Entry(h, tag, snapshot, 0)]
    {
      if h in drainTargets {
        return;
      }
      entries := entries[nextEntry := Entry(h, tag, snapshot, 0)];
      drainTargets := drainTargets[h := nextEntry];
      nextEntry := nextEntry + 1;
    }

    method HostReconcileMutex(h: HostId) returns (lock: LockId)
      modifies this`reconcileLock, this`nextLock
      ensures LocksOf() == LockFor(old(LocksOf()), h) && h in reconcileLock && lock == reconcileLock[h]
    {
      if h !in reconcileLock {
        reconcileLock := reconcileLock[h := nextLock];
        nextLock := nextLock + 1;
      }
      lock := reconcileLock[h];
    }

    method RecordRestartFailure(h: HostId)
      requires h in drainTargets ==> drainTargets[h] in entries
      modifies this`drainTargets, this`entries, this`sessionUsers
      ensures DrainOf() == RecordFailure(old(DrainOf()), h)
      ensures sessionUsers == if GivesUp(old(DrainOf()), h) then old(sessionUsers) - {h} else old(sessionUsers)
      ensures h !in old(drainTargets) ==> drainTargets == old(drainTargets) && entries == old(entries)
      ensures h in old(drainTargets) ==>
                var e := old(drainTargets)[h];
                var failed := old(entries)[e].attempts + 1;
                && entries == old(entries)[e := old(entries)[e].(attempts := failed)]
                && drainTargets == (if failed < 5 then old(drainTargets) else old(drainTargets) - {h})
    {
      if h !in drainTargets {
        return;
      }
      var e := drainTargets[h];
      var attempts := entries[e].attempts + 1;
      entries := entries[e := entries[e].(attempts := attempts)];
      if attempts >= MAX_RESTART_ATTEMPTS {
        drainTargets := drainTargets - {h};
        sessionUsers := sessionUsers - {h};
      }
    }

    method FinishUpgrade(h: HostId)
      modifies this`drainTargets, this`sessionUsers
      ensures DrainOf() == Leave(old(DrainOf()), h) && sessionUsers == old(sessionUsers) - {h}
    {
      drainTargets := drainTargets - {h};
      sessionUsers := sessionUsers - {h};
    }

    method BumpUserCount(h: HostId, id: SessionId, delta: int)
      modifies this`sessionUsers
      ensures sessionUsers == Bump(old(sessionUsers), h, id, delta)
      ensures h == "" || id == "" ==> sessionUsers == old(sessionUsers)
      ensures h != "" && id != "" ==>
                var was := if h in old(sessionUsers) && id in old(sessionUsers)[h] then old(sessionUsers)[h][id] else 0;
                && h in sessionUsers && id in sessionUsers[h]
                && (0 <= was + delta < 0x8000_0000 ==> sessionUsers[h][id] == was + delta)
                && (-0x8000_0000 <= was + delta < 0 ==> sessionUsers[h][id] == 0)
    {
      if h == "" || id == "" {
        return;
      }
      var hostMap := if h in sessionUsers then sessionUsers[h] else map[];
      var count := Int32((if id in hostMap then hostMap[id] else 0) + delta);
      if count < 0 {
        count := 0;
      }
      sessionUsers := sessionUsers[h := hostMap[id := count]];
    }

    /** What a join, a leave or an end of a session does to the counts, before anything is reconciled. */
    method NoteVisit(v: V.Visit)
      modifies this`sessionUsers
      ensures sessionUsers == V.Noted(old(sessionUsers), v)
    {
      match v {
        case Joined(h, id) => BumpUserCount(h, id, 1);
        case Left(h, id) => BumpUserCount(h, id, -1);
        case Ended(h, id) => ForgetSession(h, id);
      }
    }

    method ForgetSession(h: HostId, id: SessionId)
      modifies this`sessionUsers
      ensures sessionUsers == Forget(old(sessionUsers), h, id)
    {
      if h in sessionUsers {
        var hostMap := sessionUsers[h] - {id};
        if hostMap == map[] {
          sessionUsers := sessionUsers - {h};
        } else {
          sessionUsers := sessionUsers[h := hostMap];
        }
      }
    }

    /** userCountForSession: a positive cached count is taken as it is, anything else is asked of the host. */
    method UserCountForSession(h: HostId, id: SessionId, answers: Answers) returns (count: Option<int>, asked: bool)
      modifies this`sessionUsers
      ensures var cached := Cached(old(sessionUsers), h, id);
              asked == !(cached.Some? && cached.value > 0) &&
              count == (if !asked then cached else if id in answers.counts then Some(answers.counts[id]) else None)
      ensures sessionUsers == if asked && count.Some? then Store(old(sessionUsers), h, id, count.value)
              else old(sessionUsers)
    {
      if h in sessionUsers && id in sessionUsers[h] && sessionUsers[h][id] > 0 {
        return Some(sessionUsers[h][id]), false;
      }
      asked := true;
      if id !in answers.counts {
        return None, true;
      }
      count := Some(answers.counts[id]);
      var hostMap := if h in sessionUsers then sessionUsers[h] else map[];
      sessionUsers := sessionUsers[h := hostMap[id := count.value]];
    }

    /** One session of the pass `p`: `empty` says that it was stopped, so it does not keep the host busy. */
    method DrainSession(answers: Answers, p: P.Pass, ghost s: P.State, ghost t: P.Thread)
      returns (empty: bool, calls: seq<P.Event>, ghost s': P.State)
      requires p.at.Looping? && p.next < |p.listed| && P.AtPass(s, t, p) && Matches(s)
      modifies this`sessionUsers
      ensures P.Within(s, s', calls) && Matches(s')
      ensures P.AtPass(s', t, p.(next := p.next + 1, remaining := p.remaining + (if empty then 0 else 1)))
      ensures empty <==> Empties(old(sessionUsers), answers, p.host, p.listed[p.next])
      ensures StopsVacant(calls, p.id, p.entry, old(sessionUsers), answers, p.host, [p.listed[p.next]])
              && NoRestart(calls)
      ensures SameVacant(old(sessionUsers), sessionUsers, answers, p.host)
    {
      var id := p.listed[p.next];
      var count, asked := UserCountForSession(p.host, id, answers);
      if !asked {
        s' := P.TrustCache(s, t, p);
        return false, [], s';
      }
      ghost var s1 := P.AskCount(s, t, p, count);
      if count.None? {
        return false, [], s1;
      }
      StoreKeepsVacant(old(sessionUsers), answers, p.host, id);
      calls := [P.Counted(p.id, id, count.value)];
      if count.value > 0 {
        return false, calls, s1;
      }
      var turn;
      empty, turn, s' := StopEmpty(answers, p, s1, t);
      P.WithinTwice(s, s1, s', calls, turn);
      calls := calls + turn;
    }

    /** A session the host says is empty: stop it and, if that works, forget its count. */
    method StopEmpty(answers: Answers, p: P.Pass, ghost s: P.State, ghost t: P.Thread)
      returns (empty: bool, calls: seq<P.Event>, ghost s': P.State)
      requires p.next < |p.listed| && P.AtPass(s, t, p.(at := P.ToStop)) && Matches(s)
      requires Vacant(sessionUsers, answers, p.host, p.listed[p.next]) && p.at.Looping?
      modifies this`sessionUsers
      ensures P.Within(s, s', calls) && Matches(s')
      ensures P.AtPass(s', t, p.(next := p.next + 1, remaining := p.remaining + (if empty then 0 else 1)))
      ensures empty <==> p.listed[p.next] in answers.stops
      ensures StopsVacant(calls, p.id, p.entry, old(sessionUsers), answers, p.host, [p.listed[p.next]])
              && NoRestart(calls)
      ensures SameVacant(old(sessionUsers), sessionUsers, answers, p.host)
    {
      var id := p.listed[p.next];
      empty := id in answers.stops;
      s' := P.StopSession(s, t, p.(at := P.ToStop), empty);
      calls := [P.StopCalled(p.id, p.entry, id)];
      if empty {
        ForgetKeepsVacant(sessionUsers, answers, p.host, id);
        ForgetSession(p.host, id);
        calls := calls + [P.StopSucceeded(p.id, id)];
      }
    }

    /** The loop of reconcileHost over the running sessions, counting those that remain. */
    method DrainSessions(answers: Answers, p: P.Pass, ghost s: P.State, ghost t: P.Thread)
      returns (remaining: nat, calls: seq<P.Event>, ghost s': P.State)
      requires p.at.Looping? && p.next == 0 && p.remaining == 0 && P.AtPass(s, t, p) && Matches(s)
      modifies this`sessionUsers
      ensures P.Within(s, s', calls) && Matches(s')
      ensures P.AtPass(s', t, p.(next := |p.listed|, remaining := remaining))
      ensures remaining == 0 <==> AllEmpty(old(sessionUsers), answers, p.host, p.listed)
      ensures StopsVacant(calls, p.id, p.entry, old(sessionUsers), answers, p.host, p.listed) && NoRestart(calls)
    {
      remaining, calls, s' := 0, [], s;
      P.ReachesItself(s);
      var i := 0;
      while i < |p.listed|
        invariant 0 <= i <= |p.listed|
        invariant P.Within(s, s', calls) && Matches(s')
        invariant P.AtPass(s', t, p.(next := i, remaining := remaining))
        invariant remaining == 0 <==> AllEmpty(old(sessionUsers), answers, p.host, p.listed[..i])
        invariant StopsVacant(calls, p.id, p.entry, old(sessionUsers), answers, p.host, p.listed[..i])
                  && NoRestart(calls)
        invariant SameVacant(old(sessionUsers), sessionUsers, answers, p.host)
      {
        ghost var s1, u := s', sessionUsers;
        var empty, turn;
        empty, turn, s' := DrainSession(answers, p.(next := i, remaining := remaining), s1, t);
        P.WithinTwice(s, s1, s', calls, turn);
        StopsAppend(calls, turn, p.id, p.entry, old(sessionUsers), u, answers, p.host, p.listed, i);
        calls := calls + turn;
        if !empty {
          remaining := remaining + 1;
        }
        i := i + 1;
      }
      assert p.listed[..|p.listed|] == p.listed;
    }

    /** The last part of reconcileHost: restart an emptied host and record the outcome. */
    method FinishPass(answers: Answers, p: P.Pass, ghost s: P.State, ghost t: P.Thread)
      returns (calls: seq<P.Event>, ghost s': P.State)
      requires p.at.Looping? && p.next == |p.listed| && P.AtPass(s, t, p) && Matches(s)
      requires p.host in drainTargets && drainTargets[p.host] == p.entry && p.entry in entries
      modifies this`drainTargets, this`entries, this`sessionUsers
      ensures P.Reaches(s, s') && Matches(s') && s'.heldBy == s.heldBy && s'.trace == s.trace + calls
      ensures P.PcOf(s', t) == P.Unlocking(p.host, p.lock)
      ensures calls == if p.remaining > 0 then [] else [RestartOf(p.id, old(DrainOf()), p.host)]
      ensures DrainOf() == if p.remaining > 0 then old(DrainOf())
                           else if answers.restart then Leave(old(DrainOf()), p.host)
                             else RecordFailure(old(DrainOf()), p.host)
    {
      s' := P.LeaveLoop(s, t, p);
      if p.remaining > 0 {
        return [], s';
      }
      var entry := entries[p.entry];
      calls := [P.RestartCalled(p.id, p.entry, p.host, entry.tag, entry.snapshot)];
      ghost var s1 := s';
      s' := P.FinishRestart(s1, t, p.(at := P.Restarting), answers.restart);
      P.ReachesTransitively(s, s1, s');
      if answers.restart {
        FinishUpgrade(p.host);
      } else {
        RecordRestartFailure(p.host);
      }
    }

    /** reconcileHost between the listing of sessions and the unlock. */
    method RunPass(answers: Answers, p: P.Pass, ghost s: P.State, ghost t: P.Thread)
      returns (calls: seq<P.Event>, ghost s': P.State)
      requires p.at.Looping? && p.next == 0 && p.remaining == 0 && P.AtPass(s, t, p) && Matches(s)
      requires p.host in drainTargets && drainTargets[p.host] == p.entry && p.entry in entries
      modifies this`drainTargets, this`entries, this`sessionUsers
      ensures P.Reaches(s, s') && Matches(s') && s'.heldBy == s.heldBy && s'.trace == s.trace + calls
      ensures P.PcOf(s', t) == P.Unlocking(p.host, p.lock)
      ensures PassOutcome(p.id, old(sessionUsers), old(DrainOf()), answers, p.host, p.listed, calls, DrainOf())
    {
      var remaining, turn;
      ghost var s1;
      remaining, turn, s1 := DrainSessions(answers, p, s, t);
      calls, s' := FinishPass(answers, p.(next := |p.listed|, remaining := remaining), s1, t);
      P.ReachesTransitively(s, s1, s');
      calls := turn + calls;
    }

    /** reconcileHost under the lock. */
    method ReconcileLocked(h: HostId, lock: LockId, pass: nat, answers: Answers, ghost s: P.State, ghost t: P.Thread)
      returns (calls: seq<P.Event>, ghost s': P.State)
      requires Matches(s) && P.DrainInv(s) && pass == s.passes && P.PcOf(s, t) == P.Locked(h, lock)
      modifies this`drainTargets, this`entries, this`sessionUsers
      ensures P.Reaches(s, s') && Matches(s') && s'.heldBy == s.heldBy && s'.trace == s.trace + calls
      ensures P.PcOf(s', t) == P.Unlocking(h, lock) || (s' == s && h !in s.drain.targets)
      ensures Outcome(pass, old(sessionUsers), old(DrainOf()), answers, h, calls, DrainOf())
    {
      P.ReachesItself(s);
      if h !in drainTargets {
        return [], s;
      }
      assert P.EntryOk(s.drain, h);
      ghost var s1 := P.BeginPass(s, t, h, answers.running);
      if answers.running.None? {
        return [], s1;
      }
      var p := P.Pass(pass, h, lock, drainTargets[h], answers.running.value, 0, 0, P.Looping);
      calls, s' := RunPass(answers, p, s1, t);
      P.ReachesTransitively(s, s1, s');
      calls := [P.Listed(pass, h, p.listed)] + calls;
    }

    /**
     One uninterrupted reconcileHost.  `calls` are the external calls in order; the
     protocol, started in a state with the same fields, can take thread `t` through
     the same calls to a state with the same fields.  The host's answers decide which
     calls these are: exactly the vacant sessions are stopped, and the host is restarted
     exactly when all of its sessions went.
     */
    method ReconcileHost(h: HostId, pass: nat, answers: Answers, ghost s: P.State, ghost t: P.Thread)
      returns (calls: seq<P.Event>, ghost s': P.State)
      requires Matches(s) && P.DrainInv(s) && pass == s.passes
      requires P.PcOf(s, t).Idle? && LockFor(s.locks, h).table[h] !in s.heldBy
      modifies this
      ensures P.Reaches(s, s') && Matches(s') && s'.trace == s.trace + calls && P.PcOf(s', t).Idle?
              && s'.heldBy == s.heldBy
      ensures Outcome(pass, old(sessionUsers), old(DrainOf()), answers, h, calls, DrainOf())
    {
      var lock := HostReconcileMutex(h);
      ghost var s1 := P.Enter(s, t, h);
      EnterKeepsDrainInv(s, s1, t);
      ghost var s2;
      calls, s2 := ReconcileLocked(h, lock, pass, answers, s1, t);
      P.ReachesTransitively(s, s1, s2);
      s' := P.Exit(s2, t);
      P.ReachesTransitively(s, s2, s');
    }
  }

  lemma EnterKeepsDrainInv(s: P.State, s': P.State, t: P.Thread)
    requires P.DrainInv(s) && s'.drain == s.drain && P.PcOf(s', t).Locked?
    requires forall u :: u != t ==> P.PcOf(s', u) == P.PcOf(s, u)
    ensures P.DrainInv(s')
  {
    forall u ensures P.PassOwns(s', u) {
      assert P.PassOwns(s, u);
    }
  }
}
