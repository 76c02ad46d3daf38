/**
 HostEventWatcher.reconcile (worker/host_event_watcher.go): one stream goroutine per
 RUNNING host.  The class runs the two lock sections; the state machine lets
 goroutines exit anywhere around them and waits on `done` in between.
 */
module StreamReconcile {
  import opened SessionTable

  /** A hostStreamCtl: the goroutine started for `host` in reconcile number `round`. */
  datatype Ctl = Ctl(host: HostId, round: nat)

  type Streams = map<HostId, Ctl>

  function Kept(streams: Streams, desired: set<HostId>): Streams {
    map h | h in streams && h in desired :: streams[h]
  }

  function Gone(streams: Streams, desired: set<HostId>): set<Ctl> {
    set h | h in streams && h !in desired :: streams[h]
  }

  function Started(streams: Streams, desired: set<HostId>, round: nat): Streams {
    streams + map h | h in desired && h !in streams :: Ctl(h, round)
  }

  class HostEventWatcher {
    var streams: Streams
    var cancelled: set<Ctl>
    var spawned: set<Ctl>
    var round: nat

    constructor ()
      ensures streams == map[] && cancelled == {} && spawned == {} && round == 0
    {
      streams, cancelled, spawned, round := map[], {}, {}, 0;
    }

    /** First lock section: cancel and forget the streams of hosts that no longer run. */
    method CancelGone(desired: set<HostId>) returns (stopped: set<Ctl>)
      modifies this`streams, this`cancelled
      ensures streams == Kept(old(streams), desired)
      ensures stopped == Gone(old(streams), desired)
      ensures cancelled == old(cancelled) + stopped
    {
      stopped := {};
      var todo := streams.Keys;
      while todo != {}
        invariant todo <= old(streams).Keys
        invariant streams == map h | h in old(streams) && (h in todo || h in desired) :: old(streams)[h]
        invariant stopped == set h | h in old(streams) && h !in todo && h !in desired :: old(streams)[h]
        invariant cancelled == old(cancelled) + stopped
        decreases todo
      {
        var id :| id in todo;
        if id !in desired {
          var ctl := streams[id];
          cancelled := cancelled + {ctl};
          stopped := stopped + {ctl};
          streams := streams - {id};
        }
        todo := todo - {id};
      }
    }

    /** Second lock section: start a goroutine for every listed host without one. */
    method StartNew(desired: set<HostId>)
      modifies this`streams, this`spawned, this`round
      ensures streams == Started(old(streams), desired, old(round))
      ensures spawned == old(spawned) + (set h | h in desired && h !in old(streams) :: Ctl(h, old(round)))
      ensures round == old(round) + 1
    {
      var todo := desired;
      while todo != {}
        invariant todo <= desired && round == old(round)
        invariant streams.Keys == old(streams).Keys + (desired - todo)
        invariant forall h :: h in streams ==> streams[h] == if h in old(streams) then old(streams)[h]
                  else Ctl(h, round)
        invariant forall c :: c in spawned <==>
                    c in old(spawned) || (c.round == round && c.host in desired - todo && c.host !in old(streams))
        decreases todo
      {
        var id :| id in todo;
        if id !in streams {
          var ctl := Ctl(id, round);
          streams := streams[id := ctl];
          spawned := spawned + {ctl};
        }
        todo := todo - {id};
      }
      round := round + 1;
    }
  }

  // ---------------------------------------------------------------- all interleavings

  datatype Phase = Idle | Waiting(stopped: set<Ctl>, desired: set<HostId>) | ShuttingDown(stopped: set<Ctl>)

  datatype State = State(streams: Streams, alive: set<Ctl>, round: nat, phase: Phase)

  datatype Action =
    | Cancel(desired: set<HostId>)
    | Start
    | Exit(ctl: Ctl)
    | Shutdown

  const INIT := State(map[], {}, 0, Idle)

  function Step(s: State, a: Action): State {
    match a
    case Cancel(desired) =>
      if s.phase.Idle? then s.(streams := Kept(s.streams, desired),
                               phase := Waiting(Gone(s.streams, desired), desired)) else s
    case Start =>
      // Receiving from every `done` channel: the cancelled goroutines have returned.
      if s.phase.Waiting? && s.phase.stopped !! s.alive then
        State(Started(s.streams, s.phase.desired, s.round),
              s.alive + (set h | h in s.phase.desired && h !in s.streams :: Ctl(h, s.round)), s.round + 1, Idle)
      else s
    case Exit(ctl) => s.(alive := s.alive - {ctl})
    case Shutdown =>
      if s.phase.Idle? then s.(streams := map[], phase := ShuttingDown(Gone(s.streams, {}))) else s
  }

  function Exec(s: State, acts: seq<Action>): State
    decreases |acts|
  {
    if acts == [] then s else Step(Exec(s, acts[..|acts| - 1]), acts[|acts| - 1])
  }

  ghost predicate OnePerHost(alive: set<Ctl>) {
    forall c, d :: c in alive && d in alive && c.host == d.host ==> c == d
  }

  function Leaving(s: State): set<Ctl> {
    if s.phase.Idle? then {} else s.phase.stopped
  }

  ghost predicate Inv(s: State) {
    && (forall h :: h in s.streams ==> s.streams[h].host == h)
    && (forall c :: c in Leaving(s) ==> c.host !in s.streams)
    && OnePerHost(Leaving(s))
    && (forall c :: c in s.alive ==> c in Leaving(s) || (c.host in s.streams && s.streams[c.host] == c))
    && (s.phase.Waiting? ==> s.streams.Keys <= s.phase.desired)
    && (forall h :: h in s.streams ==> s.streams[h].round < s.round)
    && (forall c :: c in s.alive || c in Leaving(s) ==> c.round < s.round)
  }

  lemma {:induction false} RunInv(acts: seq<Action>)
    ensures Inv(Exec(INIT, acts))
    decreases |acts|
  {
    if acts != [] {
      RunInv(acts[..|acts| - 1]);
    }
  }

  /** However a host flaps and whenever goroutines return, no host ever has two live stream goroutines. */
  lemma AtMostOneStreamPerHost(acts: seq<Action>)
    ensures OnePerHost(Exec(INIT, acts).alive)
  {
    RunInv(acts);
  }

  lemma OneMore(acts: seq<Action>, a: Action)
    ensures Exec(INIT, acts + [a]) == Step(Exec(INIT, acts), a)
  {
    assert (acts + [a])[..|acts + [a]| - 1] == acts;
  }

  /**
   A reconcile begins by telling exactly the tracked streams of unlisted hosts to stop; the others
   stay tracked as they are.
   */
  lemma ReconcileStopsUnlisted(acts: seq<Action>, desired: set<HostId>)
    requires Exec(INIT, acts).phase.Idle?
    ensures var s, s' := Exec(INIT, acts), Exec(INIT, acts + [Cancel(desired)]);
            && s'.phase.Waiting? && s'.phase.desired == desired && s'.alive == s.alive
            && (forall h :: h in s.streams && h !in desired ==> s.streams[h] in s'.phase.stopped && h !in s'.streams)
            && (forall c :: c in s'.phase.stopped ==>
                c.host in s.streams && s.streams[c.host] == c && c.host !in desired)
            && (forall h :: h in s.streams && h in desired ==> h in s'.streams && s'.streams[h] == s.streams[h])
            && s'.streams.Keys <= s.streams.Keys
  {
    RunInv(acts);
    OneMore(acts, Cancel(desired));
  }

  /** A shutdown tells every tracked stream to stop and tracks none. */
  lemma ShutdownStopsAll(acts: seq<Action>)
    requires Exec(INIT, acts).phase.Idle?
    ensures var s, s' := Exec(INIT, acts), Exec(INIT, acts + [Shutdown]);
            s'.streams == map[] && s'.phase.ShuttingDown? && forall h :: h in s.streams ==>
                s.streams[h] in s'.phase.stopped
  {
    OneMore(acts, Shutdown);
  }

  /** It can always go on: once the goroutines it stopped have returned. */
  lemma {:induction false} ReconcileCanFinish(acts: seq<Action>) returns (more: seq<Action>)
    requires Exec(INIT, acts).phase.Waiting?
    ensures Exec(INIT, more).phase == Exec(INIT, acts).phase && Exec(INIT, more).phase.stopped !! Exec(INIT, more).alive
    decreases Exec(INIT, acts).phase.stopped * Exec(INIT, acts).alive
  {
    var s := Exec(INIT, acts);
    if s.phase.stopped * s.alive == {} {
      assert forall c :: c in s.phase.stopped ==> c !in s.phase.stopped * s.alive ==> c !in s.alive;
      more := acts;
    } else {
      var c :| c in s.phase.stopped * s.alive;
      OneMore(acts, Exit(c));
      assert c !in Exec(INIT, acts + [Exit(c)]).phase.stopped * Exec(INIT, acts + [Exit(c)]).alive;
      more := ReconcileCanFinish(acts + [Exit(c)]);
    }
  }

  /**
   Each successful reconcile leaves exactly the listed hosts tracked; those it already
   tracked keep their goroutine, the others get a new one, which is alive.
   */
  lemma ReconcileTracksListed(acts: seq<Action>)
    requires Exec(INIT, acts).phase.Waiting? && Exec(INIT, acts).phase.stopped !! Exec(INIT, acts).alive
    ensures var s, s' := Exec(INIT, acts), Exec(INIT, acts + [Start]);
            && s'.streams.Keys == s.phase.desired
            && (forall h :: h in s'.streams && h !in s.streams ==>
                s'.streams[h] in s'.alive && s'.streams[h] !in s.alive)
            && (forall h :: h in s.streams && h in s'.streams ==> s'.streams[h] == s.streams[h])
            && s'.phase.Idle? && s.alive <= s'.alive
  {
    RunInv(acts);
    assert (acts + [Start])[..|acts + [Start]| - 1] == acts;
  }
}
