/**
 MemoryBus (usecase/notification/bus.go): publishers put events into every matching
 subscriber's bounded channel, dropping the oldest pending event of a slow one.  First
 the bus in place, with nobody receiving in between; then publishers, receivers,
 subscriptions and cleanups interleaved under the RWMutex.
 */
module NotificationBus {
  import opened Wrappers

  type Event = string
  type User = string
  type SubId = nat
  type Thread = nat

  const BUFFER_SIZE: nat := 64

  /** `to` is the user a PublishTo names, None for a Publish to everyone. */
  datatype Note = Note(ev: Event, to: Option<User>)

  predicate Targets(n: Note, user: User) {
    n.to.None? || n.to.value == user
  }

  /** What busSend does to a channel nobody else touches. */
  function Enqueue(buf: seq<Event>, ev: Event): seq<Event> {
    if |buf| < BUFFER_SIZE then buf + [ev] else buf[1..] + [ev]
  }

  class Subscriber {
    const user: User
    var buf: seq<Event>
    var closed: bool

    constructor (user: User)
      ensures this.user == user && buf == [] && !closed
    {
      this.user := user;
      buf := [];
      closed := false;
    }
  }

  class MemoryBus {
    var nextId: nat
    var subs: map<SubId, Subscriber>

    /** Different ids stand for different channels, none of them closed. */
    ghost predicate Valid()
      reads this, subs.Values
    {
      && (forall i, j :: i in subs && j in subs && subs[i] == subs[j] ==> i == j)
      && (forall i :: i in subs ==> i <= nextId && !subs[i].closed && |subs[i].buf| <= BUFFER_SIZE)
    }

    constructor ()
      ensures Valid() && subs == map[] && nextId == 0
    {
      nextId := 0;
      subs := map[];
    }

    method Subscribe(user: User) returns (id: SubId, sub: Subscriber)
      requires Valid()
      modifies this
      ensures Valid() && fresh(sub) && sub.user == user && sub.buf == []
      ensures id !in old(subs) && subs == old(subs)[id := sub]
    {
      sub := new Subscriber(user);
      nextId := nextId + 1;
      id := nextId;
      subs := subs[id := sub];
    }

    /** The function Subscribe returns: it captured the subscription's id and channel. */
    method Cleanup(id: SubId, sub: Subscriber)
      requires Valid() && id in subs && subs[id] == sub
      modifies this`subs, sub`closed
      ensures Valid() && subs == old(subs) - {id} && sub.closed
    {
      subs := subs - {id};
      sub.closed := true;
    }

    method BusSend(sub: Subscriber, ev: Event)
      requires !sub.closed && |sub.buf| <= BUFFER_SIZE
      modifies sub`buf
      ensures sub.buf == Enqueue(old(sub.buf), ev)
    {
      if |sub.buf| < BUFFER_SIZE {
        sub.buf := sub.buf + [ev];
      } else {
        sub.buf := sub.buf[1..];
        sub.buf := sub.buf + [ev];
      }
    }

    /** Every matching subscriber gets the event, and nobody else. */
    method Send(note: Note)
      requires Valid()
      modifies subs.Values
      ensures Valid()
      ensures forall i :: i in subs ==>
                subs[i].buf == if Targets(note, subs[i].user) then Enqueue(old(subs[i].buf), note.ev)
                  else old(subs[i].buf)
    {
      var todo := subs.Keys;
      while todo != {}
        invariant Valid() && todo <= subs.Keys
        invariant forall i :: i in subs ==>
                    subs[i].buf == if i !in todo && Targets(note, subs[i].user) then
                        Enqueue(old(subs[i].buf), note.ev) else old(subs[i].buf)
        decreases todo
      {
        var id :| id in todo;
        if Targets(note, subs[id].user) {
          BusSend(subs[id], note.ev);
        }
        todo := todo - {id};
      }
    }

    method Publish(ev: Option<Event>)
      requires Valid()
      modifies subs.Values
      ensures Valid()
      ensures forall i :: i in subs ==> subs[i].buf == if ev.Some? then Enqueue(old(subs[i].buf), ev.value)
              else old(subs[i].buf)
    {
      if ev.Some? {
        Send(Note(ev.value, None));
      }
    }

    /** An empty user id, the anonymous subscriber's, is never addressed. */
    method PublishTo(user: User, ev: Option<Event>)
      requires Valid()
      modifies subs.Values
      ensures Valid()
      ensures forall i :: i in subs ==>
                subs[i].buf == if ev.Some? && user != "" && subs[i].user == user then
                    Enqueue(old(subs[i].buf), ev.value)
                               else old(subs[i].buf)
    {
      if ev.Some? && user != "" {
        Send(Note(ev.value, Some(user)));
      }
    }
  }
}
