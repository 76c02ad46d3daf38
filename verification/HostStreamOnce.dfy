/**
 One connection of a host's event stream in place (worker/host_event_watcher.go:171-233,
 worker/host_event_watcher.go:271-286): every event goes to all handlers, then into the
 resume token, then into the stored checkpoint.  The method is proved to take only steps
 of the per-host machine of module HostEventStream.
 */
module HostStreamOnce {
  import opened Wrappers
  import opened SessionLifecycle
  import H = HostEventStream

  /** What Recv returns: the next event (and whether its checkpoint write succeeds), or how the stream ends. */
  datatype Answer = Event(persistOk: bool) | Eof | OutOfRange(deleteOk: bool) | Broken

  /** The events received before the stream ends. */
  function Received(answers: seq<Answer>): (n: nat)
    ensures n <= |answers|
    ensures forall i :: 0 <= i < n ==> answers[i].Event?
    ensures n < |answers| ==> !answers[n].Event?
  {
    if answers == [] || !answers[0].Event? then 0 else 1 + Received(answers[1..])
  }

  /** The stream ends because the host no longer has the resume point. */
  predicate Lost(answers: seq<Answer>) {
    Received(answers) < |answers| && answers[Received(answers)].OutOfRange?
  }

  function HostRun(k: H.Config, x: H.Host, log: seq<HostEvent>, acts: seq<H.Action>): H.Host
    decreases |acts|
  {
    if acts == [] then x else H.HostStep(k, HostRun(k, x, log, acts[..|acts| - 1]), log, acts[|acts| - 1], false)
  }

  ghost predicate Reaches(k: H.Config, log: seq<HostEvent>, x: H.Host, x': H.Host) {
    exists acts :: HostRun(k, x, log, acts) == x'
  }

  lemma ReachesSelf(k: H.Config, log: seq<HostEvent>, x: H.Host)
    ensures Reaches(k, log, x, x)
  {
    assert HostRun(k, x, log, []) == x;
  }

  lemma ReachesOn(k: H.Config, log: seq<HostEvent>, x: H.Host, x': H.Host, a: H.Action)
    requires Reaches(k, log, x, x')
    ensures Reaches(k, log, x, H.HostStep(k, x', log, a, false))
  {
    var acts :| HostRun(k, x, log, acts) == x';
    assert (acts + [a])[..|acts|] == acts;
    assert HostRun(k, x, log, acts + [a]) == H.HostStep(k, x', log, a, false);
  }

  class HostStream {
    const name: string
    var lastEventId: Option<nat>
    var checkpoint: Option<nat>
    /** Every handler call, as (event, handler). */
    var calls: seq<(nat, nat)>
    /** The same stream in the state machine. */
    ghost var host: H.Host

    constructor (k: H.Config, name: string, checkpoint: Option<nat>, head: nat)
      requires checkpoint.Some? ==> checkpoint.value <= head
      ensures this.name == name && this.checkpoint == checkpoint && lastEventId == None && calls == []
      ensures host == H.Host(head, checkpoint, H.Down, [], seq(k.handlers, _ => {}), 0)
    {
      this.name := name;
      this.checkpoint := checkpoint;
      lastEventId := None;
      calls := [];
      host := H.Host(head, checkpoint, H.Down, [], seq(k.handlers, _ => {}), 0);
    }

    /** Between connections: the token is all the stream remembers. */
    ghost predicate Between(k: H.Config)
      reads this
    {
      && host.phase == H.Ready(lastEventId)
      && Mirrors(k)
    }

    ghost predicate Mirrors(k: H.Config)
      reads this
    {
      host.checkpoint == checkpoint && |host.handled| == k.handlers
    }

    /** The goroutine starts: a checkpoint that cannot be loaded means live-only. */
    method Launch(k: H.Config, log: seq<HostEvent>, loadOk: bool)
      requires host.phase == H.Down && Mirrors(k)
      modifies this
      ensures Between(k) && Reaches(k, log, old(host), host)
      ensures lastEventId == if loadOk then old(checkpoint) else None
      ensures checkpoint == old(checkpoint) && calls == old(calls)
    {
      lastEventId := if loadOk then checkpoint else None;
      ReachesSelf(k, log, host);
      ReachesOn(k, log, host, host, H.Launch(name, loadOk));
      host := H.HostStep(k, host, log, H.Launch(name, loadOk), false);
    }

    /** All handlers, in order. */
    method Dispatch(k: H.Config, log: seq<HostEvent>, ev: nat, ghost from: H.Host)
      requires host.phase.Dispatching? && host.phase.at == ev && host.phase.handler == 0 && k.handlers > 0 && Mirrors(k)
      requires Reaches(k, log, from, host)
      modifies this`calls, this`host
      ensures calls == old(calls) + seq(k.handlers, i => (ev, i))
      ensures host.phase == H.Dispatched(ev) && Mirrors(k) && Reaches(k, log, from, host)
      ensures host.head == old(host).head
    {
      var i := 0;
      while i < k.handlers
        invariant i <= k.handlers && Mirrors(k) && Reaches(k, log, from, host) && host.head == old(host).head
        invariant calls == old(calls) + seq(i, j => (ev, j))
        invariant if i < k.handlers then host.phase.Dispatching? && host.phase.at == ev && host.phase.handler == i
                  else host.phase == H.Dispatched(ev)
      {
        calls := calls + [(ev, i)];
        ReachesOn(k, log, from, host, H.Call(name));
        host := H.HostStep(k, host, log, H.Call(name), false);
        i := i + 1;
      }
    }

    /** The log grows as far as the next event, which comes off the stream. */
    ghost method Arrive(k: H.Config, log: seq<HostEvent>, from: H.Host)
      requires host.phase.Open? && host.phase.at < |log| && Mirrors(k) && Reaches(k, log, from, host)
      modifies this`host
      ensures host.phase == H.Dispatching(old(host).phase.at, 0, old(host).phase.blind)
      ensures Mirrors(k) && Reaches(k, log, from, host)
    {
      var open := host.phase;
      while host.head <= open.at
        invariant host.phase == open && Mirrors(k) && Reaches(k, log, from, host)
        decreases open.at + 1 - host.head
      {
        ReachesOn(k, log, from, host, H.Append(name));
        host := H.HostStep(k, host, log, H.Append(name), false);
      }
      ReachesOn(k, log, from, host, H.Recv(name));
      host := H.HostStep(k, host, log, H.Recv(name), false);
    }

    /** One event: all handlers, then the token, then the checkpoint. */
    method HandleOne(k: H.Config, log: seq<HostEvent>, ev: nat, persistOk: bool, ghost from: H.Host)
      requires k.handlers > 0 && ev < |log| && Mirrors(k) && Reaches(k, log, from, host)
      requires host.phase.Open? && host.phase.at == ev
      modifies this
      ensures Mirrors(k) && Reaches(k, log, from, host)
      ensures host.phase == H.Open(lastEventId, ev + 1, false) && lastEventId == Some(ev + 1)
      ensures checkpoint == if persistOk then lastEventId else old(checkpoint)
      ensures calls == old(calls) + seq(k.handlers, i => (ev, i))
    {
      Arrive(k, log, from);
      Dispatch(k, log, ev, from);
      lastEventId := Some(ev + 1);
      if persistOk {
        checkpoint := lastEventId;
      }
      ReachesOn(k, log, from, host, H.Persist(name, persistOk));
      host := H.HostStep(k, host, log, H.Persist(name, persistOk), false);
    }

    /** The resume point is gone: token and checkpoint are dropped and the handlers are told. */
    method Forget(k: H.Config, log: seq<HostEvent>, deleteOk: bool, ghost from: H.Host)
      requires host.phase.Open? && Mirrors(k) && Reaches(k, log, from, host)
      modifies this`lastEventId, this`checkpoint, this`host
      ensures Between(k) && Reaches(k, log, from, host)
      ensures lastEventId == None && checkpoint == if deleteOk then None else old(checkpoint)
    {
      lastEventId := None;
      if deleteOk {
        checkpoint := None;
      }
      ReachesOn(k, log, from, host, H.OutOfRange(name, deleteOk));
      host := H.HostStep(k, host, log, H.OutOfRange(name, deleteOk), false);
    }

    /** Every call for the events from `first` on, event by event and in the handlers' order. */
    static function CallsFor(first: nat, n: nat, handlers: nat): seq<(nat, nat)> {
      if n == 0 then [] else CallsFor(first, n - 1, handlers) + seq(handlers, i => (first + n - 1, i))
    }

    /** The last of the first n events whose checkpoint was written decides what is stored. */
    static function Stored(before: Option<nat>, first: nat, answers: seq<Answer>, n: nat): Option<nat>
      requires n <= |answers| && forall i :: 0 <= i < n ==> answers[i].Event?
    {
      if n == 0 then before
      else if answers[n - 1].persistOk then Some(first + n) else Stored(before, first, answers, n - 1)
    }

    /** The receive loop, up to the answer that ends the stream. */
    method ReceiveEvents(k: H.Config, log: seq<HostEvent>, first: nat, answers: seq<Answer>, ghost from: H.Host)
        returns (n: nat)
      requires k.handlers > 0 && first + |answers| <= |log| && Mirrors(k) && Reaches(k, log, from, host)
      requires host.phase.Open? && host.phase.token == lastEventId && host.phase.at == first
      modifies this
      ensures Mirrors(k) && Reaches(k, log, from, host) && host.phase.Open? && host.phase.token == lastEventId
      ensures n == Received(answers)
      ensures calls == old(calls) + CallsFor(first, n, k.handlers)
      ensures lastEventId == if n == 0 then old(lastEventId) else Some(first + n)
      ensures checkpoint == Stored(old(checkpoint), first, answers, n)
    {
      n := 0;
      while n < |answers| && answers[n].Event?
        invariant n <= |answers| && Mirrors(k) && Reaches(k, log, from, host)
        invariant host.phase.Open? && host.phase.token == lastEventId && host.phase.at == first + n
        invariant forall j :: 0 <= j < n ==> answers[j].Event?
        invariant calls == old(calls) + CallsFor(first, n, k.handlers)
        invariant lastEventId == if n == 0 then old(lastEventId) else Some(first + n)
        invariant checkpoint == Stored(old(checkpoint), first, answers, n)
      {
        HandleOne(k, log, first + n, answers[n].persistOk, from);
        n := n + 1;
      }
      ReceivedIs(answers, n);
    }

    /**
     `connected` says whether client and stream come up, `live` where the log ends just then
     and `answers` what Recv returns; the log holds the events that arrive.
     */
    method StreamOnce(k: H.Config, log: seq<HostEvent>, connected: bool, live: nat, answers: seq<Answer>)
      requires Between(k) && k.handlers > 0 && live == host.head
      requires (if lastEventId.Some? then lastEventId.value else live) + |answers| <= |log|
      modifies this
      ensures Between(k) && Reaches(k, log, old(host), host)
      ensures !connected ==> lastEventId == old(lastEventId) && checkpoint == old(checkpoint) && calls == old(calls)
      ensures connected ==>
                var first := if old(lastEventId).Some? then old(lastEventId).value else live;
                var n := Received(answers);
                && calls == old(calls) + CallsFor(first, n, k.handlers)
                && lastEventId == (if Lost(answers) then None else if n == 0 then old(lastEventId) else Some(first + n))
                && checkpoint == (if Lost(answers) && answers[n].deleteOk then None
                                  else Stored(old(checkpoint), first, answers, n))
    {
      ghost var from := host;
      ReachesSelf(k, log, from);
      if !connected {
        return;
      }
      var first := if lastEventId.Some? then lastEventId.value else live;
      ReachesOn(k, log, from, host, H.Connect(name));
      host := H.HostStep(k, host, log, H.Connect(name), false);
      var n := ReceiveEvents(k, log, first, answers, from);
      if n < |answers| && answers[n].OutOfRange? {
        Forget(k, log, answers[n].deleteOk, from);
      } else {
        ReachesOn(k, log, from, host, H.Drop(name));
        host := H.HostStep(k, host, log, H.Drop(name), false);
      }
    }
  }

  lemma {:induction false} ReceivedIs(answers: seq<Answer>, n: nat)
    requires n <= |answers| && (forall i :: 0 <= i < n ==> answers[i].Event?) && (n < |answers| ==> !answers[n].Event?)
    ensures Received(answers) == n
  {
    if n > 0 {
      ReceivedIs(answers[1..], n - 1);
    }
  }
}
