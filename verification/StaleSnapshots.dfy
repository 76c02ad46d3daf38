/**
 Which startup config a restart brings back.  An image goroutine that passed the drain
 check fetches the host's config without a lock (worker/host_upgrade_orchestrator.go:277-347),
 so the config may show a host from which this orchestrator has already stopped sessions.
 */
module StaleSnapshots {
  import opened Wrappers
  import opened SessionTable
  import opened UpgradeState
  import opened UpgradeProtocol

  /** The pass of the thread that takes the step, if it works on `h`. */
  predicate PassOn(s: State, a: Action, h: HostId) {
    (a.CallStop? || a.RestartReturned?) && PcOf(s, a.thread).InPass? && PcOf(s, a.thread).pass.host == h
  }

  predicate Stops(s: State, a: Action, h: HostId) {
    a.CallStop? && PassOn(s, a, h) && var p := PcOf(s, a.thread).pass; p.at.ToStop? && p.next < |p.listed|
  }

  predicate Restarts(s: State, a: Action, h: HostId) {
    a.RestartReturned? && PassOn(s, a, h) && PcOf(s, a.thread).pass.at.Restarting? && a.ok
  }

  predicate GivesUpOn(s: State, a: Action, h: HostId) {
    a.RestartReturned? && PassOn(s, a, h) && PcOf(s, a.thread).pass.at.Restarting? && !a.ok && GivesUp(s.drain, h)
  }

  /** The orchestrator has stopped a session of the host since the host's last successful restart. */
  predicate Disturbed(acts: seq<Action>, h: HostId)
    decreases |acts|
  {
    acts != [] &&
    var s, a := Exec(INIT, acts[..|acts| - 1]), acts[|acts| - 1];
    Stops(s, a, h) || (!Restarts(s, a, h) && Disturbed(acts[..|acts| - 1], h))
  }

  /** It has stopped one since the host's current enrollment began. */
  predicate StoppedInDrain(acts: seq<Action>, h: HostId)
    decreases |acts|
  {
    acts != [] && h in Exec(INIT, acts).drain.targets &&
    (Stops(Exec(INIT, acts[..|acts| - 1]), acts[|acts| - 1], h) || StoppedInDrain(acts[..|acts| - 1], h))
  }

  /** It gave the host up after stopping one, and no restart of the host has succeeded since. */
  predicate GaveUpStopped(acts: seq<Action>, h: HostId)
    decreases |acts|
  {
    acts != [] &&
    var s, a := Exec(INIT, acts[..|acts| - 1]), acts[|acts| - 1];
    (GivesUpOn(s, a, h) && StoppedInDrain(acts[..|acts| - 1], h))
      || (!Restarts(s, a, h) && GaveUpStopped(acts[..|acts| - 1], h))
  }

  /** A host leaves the drain table only by a successful restart or by being given up. */
  lemma LeavesByRestart(s: State, a: Action, h: HostId)
    requires h in s.drain.targets && h !in Step(s, a).drain.targets
    ensures Restarts(s, a, h) || GivesUpOn(s, a, h)
  {
    if !a.EnrollHost? && !a.RestartReturned? {
      DrainUntouched(s, a);
    }
  }

  lemma RestartTakesOut(s: State, a: Action, h: HostId)
    requires Restarts(s, a, h) || GivesUpOn(s, a, h)
    ensures h !in Step(s, a).drain.targets
  {
  }

  /**
   Every run: a host has had sessions stopped since its last restart exactly when its
   current enrollment stopped one, or one was given up after doing so.  A config fetched
   at any other time shows the host undisturbed.
   */
  lemma {:induction false} DisturbedIff(acts: seq<Action>, h: HostId)
    ensures Disturbed(acts, h) <==> StoppedInDrain(acts, h) || GaveUpStopped(acts, h)
    ensures h !in Exec(INIT, acts).drain.targets ==> (Disturbed(acts, h) <==> GaveUpStopped(acts, h))
    decreases |acts|
  {
    if acts != [] {
      var before, a := acts[..|acts| - 1], acts[|acts| - 1];
      var s := Exec(INIT, before);
      DisturbedIff(before, h);
      if Stops(s, a, h) {
        EntryStaysWhileReconciling(before, a.thread);
        DrainUntouched(s, a);
      } else if Restarts(s, a, h) || GivesUpOn(s, a, h) {
        RestartTakesOut(s, a, h);
      } else if h in s.drain.targets && h !in Step(s, a).drain.targets {
        LeavesByRestart(s, a, h);
      }
    }
  }

  // ---------------------------------------------------------------- a config fetched too late

  lemma Then(acts: seq<Action>, a: Action)
    ensures Exec(INIT, acts + [a]) == Step(Exec(INIT, acts), a)
  {
    assert (acts + [a])[..|acts + [a]| - 1] == acts;
  }

  lemma ThenTwo(acts: seq<Action>, a: Action, b: Action)
    ensures Exec(INIT, acts + [a, b]) == Step(Step(Exec(INIT, acts), a), b)
  {
    Then(acts, a);
    Then(acts + [a], b);
    assert acts + [a, b] == acts + [a] + [b];
  }

  /** Two image goroutines pass the check ... */
  lemma TwoChecks(h: HostId) returns (acts: seq<Action>)
    ensures var s := Exec(INIT, acts);
            s == INIT.(threads := map[1 := Fetching(h, "tag"), 2 := Fetching(h, "tag")])
  {
    acts := [] + [NewImage(1, h, "tag"), NewImage(2, h, "tag")];
    ThenTwo([], NewImage(1, h, "tag"), NewImage(2, h, "tag"));
  }

  /** ... one fetches the config and enrolls the host ... */
  lemma FirstEnrolls(h: HostId) returns (acts: seq<Action>)
    ensures var s := Exec(INIT, acts);
            && PcOf(s, 2) == Fetching(h, "tag") && PcOf(s, 3) == Idle && PcOf(s, 4) == Idle
            && s.drain == Enroll(INIT.drain, h, "tag", "full") && s.users == map[] && s.locks == INIT.locks
               && s.heldBy == map[]
  {
    var before := TwoChecks(h);
    ThenTwo(before, ConfigFetched(1, Some("full")), EnrollHost(1));
    acts := before + [ConfigFetched(1, Some("full")), EnrollHost(1)];
    var s1 := Step(Exec(INIT, before), ConfigFetched(1, Some("full")));
    assert PcOf(s1, 1) == Snapped(h, "tag", "full") && PcOf(s1, 2) == Fetching(h, "tag") && PcOf(s1, 3) == Idle;
  }

  /** ... and a tick begins to reconcile it. */
  lemma TickReconciles(h: HostId) returns (acts: seq<Action>, p: Pass)
    ensures var s := Exec(INIT, acts);
            PcOf(s, 2) == Fetching(h, "tag") && PcOf(s, 3) == InPass(p) && PcOf(s, 4) == Idle
              && s.drain == Enroll(INIT.drain, h, "tag", "full")
            && s.users == map[]
    ensures p.host == h && p.entry == 0 && p.next == 0 && p.remaining == 0 && p.at.Listing?
  {
    var before := FirstEnrolls(h);
    ThenTwo(before, Reconcile(3, h), Acquire(3));
    var locked := before + [Reconcile(3, h), Acquire(3)];
    var s1 := Step(Exec(INIT, before), Reconcile(3, h));
    assert PcOf(s1, 3) == Wanting(h, 0) && PcOf(s1, 2) == Fetching(h, "tag") && s1.heldBy == map[];
    Then(locked, ReadDrain(3));
    acts := locked + [ReadDrain(3)];
    p := PcOf(Exec(INIT, acts), 3).pass;
  }

  /** The host is enrolled, its restart has failed so many times, and an image goroutine is free. */
  predicate FailedSoOften(s: State, h: HostId, k: nat) {
    h in s.drain.targets && s.drain.targets[h] in s.drain.entries &&
    s.drain.entries[s.drain.targets[h]].attempts == k && PcOf(s, 4).Idle?
  }

  /** Thread 2 is about to fetch the host's config, thread 3 has just stopped the host's only session. */
  ghost predicate AboutToFetch(s: State, h: HostId, p: Pass) {
    && PcOf(s, 2) == Fetching(h, "tag") && PcOf(s, 3) == InPass(p)
    && p.host == h && p.at.Looping? && p.next == |p.listed| && p.remaining == 0
    && FailedSoOften(s, h, 0) && s.drain.targets[h] == p.entry
  }

  /** The one session, which nobody is in, is about to be stopped. */
  ghost predicate FoundEmpty(s: State, h: HostId, id: SessionId, p: Pass) {
    && PcOf(s, 2) == Fetching(h, "tag") && PcOf(s, 3) == InPass(p) && PcOf(s, 4) == Idle
    && s.drain == Enroll(INIT.drain, h, "tag", "full")
    && p.host == h && p.entry == 0 && p.listed == [id] && p.next == 0 && p.remaining == 0 && p.at.ToStop?
  }

  lemma AsksAboutOne(s: State, h: HostId, id: SessionId, p: Pass)
    requires PcOf(s, 2) == Fetching(h, "tag") && PcOf(s, 3) == InPass(p) && PcOf(s, 4) == Idle && s.users == map[]
    requires p.host == h && p.listed == [id] && p.next == 0 && p.at.Looping?
    ensures var s' := Step(Step(s, Examine(3)), CountReturned(3, Some(0)));
            && PcOf(s', 2) == Fetching(h, "tag") && PcOf(s', 3) == InPass(p.(at := ToStop)) && PcOf(s', 4) == Idle
            && s'.drain == s.drain
  {
    var s1 := Step(s, Examine(3));
    assert PcOf(s1, 3) == InPass(p.(at := Counting)) && PcOf(s1, 2) == Fetching(h, "tag") && PcOf(s1, 4) == Idle;
  }

  lemma FindsEmpty(h: HostId, id: SessionId) returns (acts: seq<Action>, p: Pass)
    ensures FoundEmpty(Exec(INIT, acts), h, id, p)
  {
    var before, p0 := TickReconciles(h);
    Then(before, ListReturned(3, Some([id])));
    var listed := before + [ListReturned(3, Some([id]))];
    var p1 := p0.(listed := [id], at := Looping);
    assert PcOf(Exec(INIT, listed), 3) == InPass(p1) && Exec(INIT, listed).users == map[];
    AsksAboutOne(Exec(INIT, listed), h, id, p1);
    ThenTwo(listed, Examine(3), CountReturned(3, Some(0)));
    acts := listed + [Examine(3), CountReturned(3, Some(0))];
    p := p1.(at := ToStop);
  }

  lemma StopsOne(s: State, h: HostId, id: SessionId, p: Pass)
    requires FoundEmpty(s, h, id, p)
    ensures Stops(s, CallStop(3), h)
    ensures AboutToFetch(Step(Step(s, CallStop(3)), StopReturned(3, true)), h, p.(at := Looping, next := 1))
  {
    var s1 := Step(s, CallStop(3));
    assert PcOf(s1, 3) == InPass(p.(at := Stopping)) && PcOf(s1, 2) == Fetching(h, "tag") && PcOf(s1, 4) == Idle;
  }

  lemma StopReaches(h: HostId, id: SessionId) returns (acts: seq<Action>, p: Pass)
    ensures AboutToFetch(Exec(INIT, acts), h, p) && Disturbed(acts, h)
  {
    var before, p0 := FindsEmpty(h, id);
    StopsOne(Exec(INIT, before), h, id, p0);
    Then(before, CallStop(3));
    var called := before + [CallStop(3)];
    assert called[..|called| - 1] == before && Disturbed(called, h);
    StaysDisturbed(called, StopReturned(3, true), h);
    acts := called + [StopReturned(3, true)];
    p := p0.(at := Looping, next := 1);
  }

  lemma FetchAndRestart(s: State, h: HostId, p: Pass, drained: Snapshot)
    requires AboutToFetch(s, h, p)
    ensures var s' := Step(Step(Step(s, ConfigFetched(2, Some(drained))), EndLoop(3)), RestartReturned(3, true));
            PcOf(s', 2) == Snapped(h, "tag", drained) && h !in s'.drain.targets
  {
    var s1 := Step(s, ConfigFetched(2, Some(drained)));
    assert AtPass(s1, 3, p) && PcOf(s1, 2) == Snapped(h, "tag", drained);
    var s2 := Step(s1, EndLoop(3));
    assert AtPass(s2, 3, p.(at := Restarting)) && PcOf(s2, 2) == Snapped(h, "tag", drained);
  }

  lemma RunFetchAndRestart(before: seq<Action>, h: HostId, p: Pass, drained: Snapshot)
    requires AboutToFetch(Exec(INIT, before), h, p)
    ensures var s := Exec(INIT, before + [ConfigFetched(2, Some(drained))] + [EndLoop(3), RestartReturned(3, true)]);
            PcOf(s, 2) == Snapped(h, "tag", drained) && h !in s.drain.targets
  {
    var s := Exec(INIT, before);
    Then(before, ConfigFetched(2, Some(drained)));
    ThenTwo(before + [ConfigFetched(2, Some(drained))], EndLoop(3), RestartReturned(3, true));
    FetchAndRestart(s, h, p, drained);
  }

  /**
   A run from the start in which an enrollment records a config that was fetched after
   the orchestrator had stopped a session of the host: a second image goroutine passed
   the check before the first one enrolled, fetched during the drain, and enrolls the
   host again after its restart.
   */
  lemma StaleSnapshotIsEnrolled(h: HostId, id: SessionId, drained: Snapshot) returns (acts: seq<Action>, fetch: nat)
    ensures fetch < |acts| && acts[fetch] == ConfigFetched(2, Some(drained)) && Disturbed(acts[..fetch], h)
    ensures PcOf(Exec(INIT, acts[..fetch]), 2) == Fetching(h, "tag")
    ensures var d := Exec(INIT, acts).drain;
            h in d.targets && d.targets[h] in d.entries && d.entries[d.targets[h]].snapshot == drained
  {
    var before, p := StopReaches(h, id);
    fetch := |before|;
    var restarted := before + [ConfigFetched(2, Some(drained))] + [EndLoop(3), RestartReturned(3, true)];
    acts := restarted + [EnrollHost(2)];
    EnrollsAfterRestart(before, h, p, drained);
    assert acts[..fetch] == before;
  }

  lemma EnrollsAfterRestart(before: seq<Action>, h: HostId, p: Pass, drained: Snapshot)
    requires AboutToFetch(Exec(INIT, before), h, p)
    ensures var d := Exec(INIT,
                          before + [ConfigFetched(2, Some(drained))] + [EndLoop(3), RestartReturned(3, true)]
                            + [EnrollHost(2)]).drain;
            h in d.targets && d.targets[h] in d.entries && d.entries[d.targets[h]].snapshot == drained
  {
    RunFetchAndRestart(before, h, p, drained);
    var restarted := before + [ConfigFetched(2, Some(drained))] + [EndLoop(3), RestartReturned(3, true)];
    EnrollsWith(Exec(INIT, restarted), 2, h, drained);
    Then(restarted, EnrollHost(2));
  }

  lemma EnrollsWith(s: State, t: Thread, h: HostId, snapshot: Snapshot)
    requires PcOf(s, t) == Snapped(h, "tag", snapshot) && h !in s.drain.targets
    ensures var d := Step(s, EnrollHost(t)).drain;
            h in d.targets && d.targets[h] in d.entries && d.entries[d.targets[h]].snapshot == snapshot
  {
  }

  // ---------------------------------------------------------------- a config fetched after giving up

  lemma StaysDisturbed(acts: seq<Action>, a: Action, h: HostId)
    requires Disturbed(acts, h) && (a.RestartReturned? ==> !a.ok)
    ensures Disturbed(acts + [a], h) && Exec(INIT, acts + [a]) == Step(Exec(INIT, acts), a)
  {
    Then(acts, a);
    assert (acts + [a])[..|acts + [a]| - 1] == acts;
  }

  /** The reconciling thread is free too, with the host's lock released. */
  predicate BetweenPasses(s: State, h: HostId, k: nat) {
    FailedSoOften(s, h, k) && PcOf(s, 3).Idle? && LockFor(s.locks, h).table[h] !in s.heldBy
  }

  predicate InPassOf(s: State, h: HostId, k: nat, at: PassAt) {
    FailedSoOften(s, h, k) && PcOf(s, 3).InPass? && PcOf(s, 3).pass.host == h && PcOf(s, 3).pass.at == at &&
    PcOf(s, 3).pass.entry == s.drain.targets[h] && PcOf(s, 3).pass.remaining == 0 &&
    PcOf(s, 3).pass.next == |PcOf(s, 3).pass.listed| && (at.Listing? ==> PcOf(s, 3).pass.listed == [])
  }

  lemma EntersPass(acts: seq<Action>, h: HostId, k: nat) returns (more: seq<Action>)
    requires Disturbed(acts, h) && BetweenPasses(Exec(INIT, acts), h, k)
    ensures Disturbed(more, h) && InPassOf(Exec(INIT, more), h, k, Listing)
  {
    TakesLock(Exec(INIT, acts), h, k);
    StaysDisturbed(acts, Reconcile(3, h), h);
    StaysDisturbed(acts + [Reconcile(3, h)], Acquire(3), h);
    var locked := acts + [Reconcile(3, h)] + [Acquire(3)];
    StaysDisturbed(locked, ReadDrain(3), h);
    more := locked + [ReadDrain(3)];
  }

  lemma TakesLock(s: State, h: HostId, k: nat)
    requires BetweenPasses(s, h, k)
    ensures var s' := Step(Step(s, Reconcile(3, h)), Acquire(3));
            PcOf(s', 3).Locked? && PcOf(s', 3).host == h && FailedSoOften(s', h, k)
  {
    var s1 := Step(s, Reconcile(3, h));
    assert PcOf(s1, 3) == Wanting(h, LockFor(s.locks, h).table[h]) && s1.drain == s.drain && s1.heldBy == s.heldBy;
  }

  lemma AsksForRestart(acts: seq<Action>, h: HostId, k: nat) returns (more: seq<Action>)
    requires Disturbed(acts, h) && InPassOf(Exec(INIT, acts), h, k, Listing)
    ensures Disturbed(more, h) && InPassOf(Exec(INIT, more), h, k, Restarting)
  {
    StaysDisturbed(acts, ListReturned(3, Some([])), h);
    var listed := acts + [ListReturned(3, Some([]))];
    assert InPassOf(Exec(INIT, listed), h, k, Looping);
    more := EndsLoop(listed, h, k);
  }

  lemma EndsLoop(acts: seq<Action>, h: HostId, k: nat) returns (more: seq<Action>)
    requires Disturbed(acts, h) && InPassOf(Exec(INIT, acts), h, k, Looping)
    ensures Disturbed(more, h) && InPassOf(Exec(INIT, more), h, k, Restarting)
  {
    StaysDisturbed(acts, EndLoop(3), h);
    more := acts + [EndLoop(3)];
  }

  /** A failed restart, then the release of the lock. */
  lemma FailedRestart(s: State, h: HostId, k: nat)
    requires InPassOf(s, h, k, Restarting) && k + 1 < MAX_RESTART_ATTEMPTS
    ensures FailedSoOften(Step(s, RestartReturned(3, false)), h, k + 1)
  {
  }

  lemma LastFailure(s: State, h: HostId, k: nat)
    requires InPassOf(s, h, k, Restarting) && k + 1 >= MAX_RESTART_ATTEMPTS
    ensures h !in Step(s, RestartReturned(3, false)).drain.targets && PcOf(Step(s, RestartReturned(3, false)), 4).Idle?
  {
  }

  lemma RestartUnlocks(s: State, h: HostId, k: nat)
    requires InPassOf(s, h, k, Restarting) && LockOk(s, 3)
    ensures var s' := Step(s, RestartReturned(3, false));
            PcOf(s', 3) == Unlocking(h, PcOf(s, 3).pass.lock) && KnowsLock(s', h, PcOf(s, 3).pass.lock)
  {
  }

  lemma Unlocks(s: State, h: HostId)
    requires PcOf(s, 3).Unlocking? && PcOf(s, 3).host == h && KnowsLock(s, h, PcOf(s, 3).lock)
    ensures var s' := Step(s, Unlock(3));
            && PcOf(s', 3).Idle? && LockFor(s'.locks, h).table[h] !in s'.heldBy
            && s'.drain == s.drain && PcOf(s', 4) == PcOf(s, 4)
  {
  }

  /** The restart fails; the last failure gives the host up. */
  lemma RestartFails(acts: seq<Action>, h: HostId, k: nat) returns (more: seq<Action>)
    requires Disturbed(acts, h) && InPassOf(Exec(INIT, acts), h, k, Restarting)
    ensures Disturbed(more, h)
    ensures if k + 1 < MAX_RESTART_ATTEMPTS then BetweenPasses(Exec(INIT, more), h, k + 1)
            else h !in Exec(INIT, more).drain.targets && PcOf(Exec(INIT, more), 4).Idle?
  {
    RunInv(acts);
    assert LockOk(Exec(INIT, acts), 3);
    RestartUnlocks(Exec(INIT, acts), h, k);
    if k + 1 < MAX_RESTART_ATTEMPTS {
      FailedRestart(Exec(INIT, acts), h, k);
    } else {
      LastFailure(Exec(INIT, acts), h, k);
    }
    StaysDisturbed(acts, RestartReturned(3, false), h);
    var failed := acts + [RestartReturned(3, false)];
    Unlocks(Exec(INIT, failed), h);
    StaysDisturbed(failed, Unlock(3), h);
    more := failed + [Unlock(3)];
  }

  lemma {:induction false} FailsUntilGivenUp(acts: seq<Action>, h: HostId, k: nat) returns (more: seq<Action>)
    requires Disturbed(acts, h) && BetweenPasses(Exec(INIT, acts), h, k) && k < MAX_RESTART_ATTEMPTS
    ensures Disturbed(more, h) && h !in Exec(INIT, more).drain.targets && PcOf(Exec(INIT, more), 4).Idle?
    decreases MAX_RESTART_ATTEMPTS - k
  {
    more := EntersPass(acts, h, k);
    more := AsksForRestart(more, h, k);
    more := RestartFails(more, h, k);
    if k + 1 < MAX_RESTART_ATTEMPTS {
      more := FailsUntilGivenUp(more, h, k + 1);
    }
  }

  /**
   A run from the start: the host's only session is stopped, its restart fails until the
   host is given up, and the next new image enrolls it with the config of the emptied host.
   */
  lemma GivenUpHostIsEnrolledStale(h: HostId, id: SessionId, drained: Snapshot) returns (acts: seq<Action>, fetch: nat)
    ensures fetch < |acts| && acts[fetch] == ConfigFetched(4, Some(drained))
    ensures h !in Exec(INIT, acts[..fetch]).drain.targets && Disturbed(acts[..fetch], h)
            && GaveUpStopped(acts[..fetch], h)
    ensures var d := Exec(INIT, acts).drain;
            h in d.targets && d.targets[h] in d.entries && d.entries[d.targets[h]].snapshot == drained
  {
    var stopped, p := StopReaches(h, id);
    var before := EndsLoop(stopped, h, 0);
    before := RestartFails(before, h, 0);
    before := FailsUntilGivenUp(before, h, 1);
    acts, fetch := EnrollsGivenUp(before, h, drained);
  }

  lemma EnrollsGivenUp(before: seq<Action>, h: HostId, drained: Snapshot) returns (acts: seq<Action>, fetch: nat)
    requires Disturbed(before, h) && h !in Exec(INIT, before).drain.targets && PcOf(Exec(INIT, before), 4).Idle?
    ensures fetch < |acts| && acts[fetch] == ConfigFetched(4, Some(drained))
    ensures h !in Exec(INIT, acts[..fetch]).drain.targets && Disturbed(acts[..fetch], h)
            && GaveUpStopped(acts[..fetch], h)
    ensures var d := Exec(INIT, acts).drain;
            h in d.targets && d.targets[h] in d.entries && d.entries[d.targets[h]].snapshot == drained
  {
    StaysDisturbed(before, NewImage(4, h, "tag"), h);
    var checked := before + [NewImage(4, h, "tag")];
    fetch := |checked|;
    DisturbedIff(checked, h);
    assert PcOf(Exec(INIT, checked), 4) == Fetching(h, "tag") && h !in Exec(INIT, checked).drain.targets;
    var s1 := Step(Exec(INIT, checked), ConfigFetched(4, Some(drained)));
    assert PcOf(s1, 4) == Snapped(h, "tag", drained) && h !in s1.drain.targets;
    EnrollsWith(s1, 4, h, drained);
    ThenTwo(checked, ConfigFetched(4, Some(drained)), EnrollHost(4));
    acts := checked + [ConfigFetched(4, Some(drained)), EnrollHost(4)];
    assert acts[..fetch] == checked;
  }

  // ---------------------------------------------------------------- every enrollment

  /** The thread fetches the config it enrolls with. */
  ghost predicate Fetches(acts: seq<Action>, n: nat, t: Thread, h: HostId, snapshot: Snapshot) {
    && n < |acts| && acts[n] == ConfigFetched(t, Some(snapshot))
    && PcOf(Exec(INIT, acts[..n]), t).Fetching? && PcOf(Exec(INIT, acts[..n]), t).host == h
  }

  lemma SnappedStep(s: State, a: Action, t: Thread)
    requires PcOf(Step(s, a), t).Snapped?
    ensures var pc := PcOf(Step(s, a), t);
            || PcOf(s, t) == pc
            || (a == ConfigFetched(t, Some(pc.snapshot)) && PcOf(s, t).Fetching? && PcOf(s, t).host == pc.host)
  {
    if a.ConfigFetched? || a.EnrollHost? {
      assert a.thread != t ==> PcOf(Step(s, a), t) == PcOf(s, t);
    }
  }

  lemma {:induction false} SnapshotWasFetched(acts: seq<Action>, t: Thread) returns (n: nat)
    requires PcOf(Exec(INIT, acts), t).Snapped?
    ensures Fetches(acts, n, t, PcOf(Exec(INIT, acts), t).host, PcOf(Exec(INIT, acts), t).snapshot)
    decreases |acts|
  {
    var before := acts[..|acts| - 1];
    SnappedStep(Exec(INIT, before), acts[|acts| - 1], t);
    if PcOf(Exec(INIT, before), t) == PcOf(Exec(INIT, acts), t) {
      n := SnapshotWasFetched(before, t);
      assert before[..n] == acts[..n];
    } else {
      n := |acts| - 1;
    }
  }

  /** A step adds at most one event, and an enrollment only by the thread that holds the config. */
  ghost predicate AddsEnrollment(s: State, s': State, a: Action) {
    || s'.trace == s.trace
    || (exists ev :: s'.trace == s.trace + [ev] && (ev.Enrolled? ==> Enrolls(s, a, ev)))
  }

  predicate Enrolls(s: State, a: Action, ev: Event)
    requires ev.Enrolled?
  {
    a.EnrollHost? && PcOf(s, a.thread) == Snapped(ev.host, ev.tag, ev.snapshot)
  }

  lemma PassEnrollsNobody(s: State, a: Action, t: Thread, p: Pass)
    ensures AddsEnrollment(s, StepPass(s, a, t, p), a)
  {
  }

  lemma OutsideEnrolls(s: State, a: Action)
    requires !a.StartCheck? && !a.StartRpc? && !a.StartFails? && !a.CacheBump? && !a.CacheForget? && !a.CacheSeed?
             && !a.CacheWipe?
    ensures AddsEnrollment(s, StepOutside(s, a, a.thread), a)
  {
  }

  lemma EnrolledStep(s: State, a: Action)
    ensures AddsEnrollment(s, Step(s, a), a)
  {
    if !a.StartCheck? && !a.StartRpc? && !a.StartFails? && !a.CacheBump? && !a.CacheForget? && !a.CacheSeed?
      && !a.CacheWipe? {
      if PcOf(s, a.thread).InPass? {
        PassEnrollsNobody(s, a, a.thread, PcOf(s, a.thread).pass);
      } else {
        OutsideEnrolls(s, a);
      }
    }
  }

  /** The config of an enrollment: which step enrolled, which fetched it, and what the fetch could show. */
  ghost predicate ConfigOf(acts: seq<Action>, i: nat, m: nat, n: nat, t: Thread)
    requires i < |Exec(INIT, acts).trace| && Exec(INIT, acts).trace[i].Enrolled?
  {
    var e := Exec(INIT, acts).trace[i];
    && n < m < |acts| && acts[m] == EnrollHost(t) && Exec(INIT, acts[..m]).trace == Exec(INIT, acts).trace[..i]
    && Fetches(acts, n, t, e.host, e.snapshot)
    && (Disturbed(acts[..n], e.host) <==> StoppedInDrain(acts[..n], e.host) || GaveUpStopped(acts[..n], e.host))
  }

  lemma NewEnrollment(acts: seq<Action>) returns (n: nat)
    requires acts != []
    requires var s, tr := Exec(INIT, acts[..|acts| - 1]), Exec(INIT, acts).trace;
             |tr| == |s.trace| + 1 && tr[..|s.trace|] == s.trace && tr[|s.trace|].Enrolled?
             && Enrolls(s, acts[|acts| - 1], tr[|s.trace|])
    ensures ConfigOf(acts, |Exec(INIT, acts).trace| - 1, |acts| - 1, n, acts[|acts| - 1].thread)
  {
    var before := acts[..|acts| - 1];
    n := SnapshotWasFetched(before, acts[|acts| - 1].thread);
    assert before[..n] == acts[..n];
    DisturbedIff(acts[..n], Exec(INIT, acts).trace[|Exec(INIT, acts).trace| - 1].host);
  }

  /**
   Every enrollment of every run: its config was fetched by the thread that enrolled,
   and it shows the host with sessions stopped by the orchestrator exactly when at the
   fetch an enrollment of the host had stopped one and it had not been restarted since.
   */
  lemma {:induction false} EveryEnrollment(acts: seq<Action>, i: nat) returns (m: nat, n: nat, t: Thread)
    requires i < |Exec(INIT, acts).trace| && Exec(INIT, acts).trace[i].Enrolled?
    ensures ConfigOf(acts, i, m, n, t)
    decreases |acts|
  {
    var before, a := acts[..|acts| - 1], acts[|acts| - 1];
    var s, tr := Exec(INIT, before), Exec(INIT, acts).trace;
    EnrolledStep(s, a);
    assert tr[..|s.trace|] == s.trace;
    if i < |s.trace| {
      assert tr[..|s.trace|][i] == tr[i] && tr[..|s.trace|][..i] == tr[..i];
      m, n, t := EveryEnrollment(before, i);
      assert before[..m] == acts[..m] && before[..n] == acts[..n];
    } else {
      m, t := |before|, a.thread;
      n := NewEnrollment(acts);
    }
  }
}
