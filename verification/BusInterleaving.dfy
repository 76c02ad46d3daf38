/**
 The notification bus under concurrency (usecase/notification/bus.go:73-145):
 publishers hold the read lock while they go through the subscribers, one channel
 operation at a time; subscriptions and cleanups take the write lock, and a waiting
 writer keeps new readers out; receivers and the closing of a channel need no lock.
 */
module BusInterleaving {
  import opened Wrappers
  import opened NotificationBus

  /** An event that left the channel: received, or dropped by a publisher. */
  datatype Taken = Taken(ev: Event, dropped: bool)

  /** A subscription: it saw the notes from `since` on, up to `until` once it is cleaned up. */
  datatype Feed = Feed(user: User, since: nat, until: Option<nat>, buf: seq<Event>, closed: bool, taken: seq<Taken>)

  /** Where busSend is: `seen` is how much had left the channel when the send found it full. */
  datatype Place = Choosing | Draining(sub: SubId, seen: nat) | Pushing(sub: SubId)

  datatype Pub = Pub(note: Note, todo: set<SubId>, at: Place)

  datatype Writer = Subscribing(user: User) | Cleaning(id: SubId)

  datatype State = State(
    subs: set<SubId>,
    feeds: map<SubId, Feed>,
    nextId: nat,
    pubs: map<Thread, Pub>,
    waiting: map<Thread, Writer>,
    cleaned: set<SubId>,
    history: seq<Note>,
    broken: bool)

  datatype Action =
    | Begin(t: Thread, note: Note)
    | TrySend(t: Thread, id: SubId)
    | Drain(t: Thread)
    | Push(t: Thread)
    | End(t: Thread)
    | WantSubscribe(t: Thread, user: User)
    | WantCleanup(t: Thread, id: SubId)
    | Acquire(t: Thread)
    | Close(id: SubId)
    | Receive(id: SubId)

  predicate PubAt(s: State, t: Thread, id: SubId) {
    t in s.pubs && id in s.feeds &&
    match s.pubs[t].at
    case Choosing => id in s.pubs[t].todo
    case Draining(sub, _) => sub == id
    case Pushing(sub) => sub == id
  }

  function Matching(s: State, note: Note): set<SubId> {
    set id | id in s.subs && id in s.feeds && Targets(note, s.feeds[id].user)
  }

  function Pushed(s: State, t: Thread, id: SubId): State
    requires PubAt(s, t, id)
  {
    var p, f := s.pubs[t], s.feeds[id];
    s.(feeds := s.feeds[id := f.(buf := f.buf + [p.note.ev])],
       pubs := s.pubs[t := p.(todo := p.todo - {id}, at := Choosing)])
  }

  /** The non-blocking send; a send on a closed channel panics. */
  function StepTrySend(s: State, t: Thread, id: SubId): State
    requires PubAt(s, t, id)
  {
    if s.feeds[id].closed then s.(broken := true)
    else if |s.feeds[id].buf| < BUFFER_SIZE then Pushed(s, t, id)
    else s.(pubs := s.pubs[t := s.pubs[t].(at := Draining(id, |s.feeds[id].taken|))])
  }

  /** The blocking receive that makes room. */
  function StepDrain(s: State, t: Thread, id: SubId): State
    requires PubAt(s, t, id)
  {
    var f := s.feeds[id];
    if f.closed then s.(broken := true)
    else if f.buf == [] then s
    else s.(feeds := s.feeds[id := f.(buf := f.buf[1..], taken := f.taken + [Taken(f.buf[0], true)])],
            pubs := s.pubs[t := s.pubs[t].(at := Pushing(id))])
  }

  /** The blocking send after it. */
  function StepPush(s: State, t: Thread, id: SubId): State
    requires PubAt(s, t, id)
  {
    if s.feeds[id].closed then s.(broken := true)
    else if |s.feeds[id].buf| < BUFFER_SIZE then Pushed(s, t, id)
    else s
  }

  /** The critical section of a writer. */
  function StepAcquire(s: State, t: Thread): State
    requires t in s.waiting
  {
    var rest := s.waiting - {t};
    match s.waiting[t]
    case Subscribing(user) =>
      var id := s.nextId + 1;
      s.(nextId := id, subs := s.subs + {id}, waiting := rest,
         feeds := s.feeds[id := Feed(user, |s.history|, None, [], false, [])])
    case Cleaning(id) =>
      s.(subs := s.subs - {id}, waiting := rest,
         feeds := if id in s.subs && id in s.feeds then s.feeds[id := s.feeds[id].(until := Some(|s.history|))]
           else s.feeds)
  }

  function Step(s: State, a: Action): State {
    match a
    case Begin(t, note) =>
      if t !in s.pubs && t !in s.waiting && s.waiting == map[] && note.to != Some("") then
        s.(pubs := s.pubs[t := Pub(note, Matching(s, note), Choosing)],
           history := s.history + [note])
      else s
    case TrySend(t, id) => if PubAt(s, t, id) && s.pubs[t].at.Choosing? then StepTrySend(s, t, id) else s
    case Drain(t) => if t in s.pubs && s.pubs[t].at.Draining? && PubAt(s, t, s.pubs[t].at.sub) then
        StepDrain(s, t, s.pubs[t].at.sub) else s
    case Push(t) => if t in s.pubs && s.pubs[t].at.Pushing? && PubAt(s, t, s.pubs[t].at.sub) then
        StepPush(s, t, s.pubs[t].at.sub) else s
    case End(t) => if t in s.pubs && s.pubs[t].at.Choosing? && s.pubs[t].todo == {} then s.(pubs := s.pubs - {t}) else s
    case WantSubscribe(t, user) => if t !in s.pubs && t !in s.waiting then
        s.(waiting := s.waiting[t := Subscribing(user)]) else s
    // A subscription is cleaned up once.
    case WantCleanup(t, id) =>
      if t !in s.pubs && t !in s.waiting && id in s.subs && id !in s.cleaned then
        s.(waiting := s.waiting[t := Cleaning(id)], cleaned := s.cleaned + {id})
      else s
    case Acquire(t) => if t in s.waiting && s.pubs == map[] then StepAcquire(s, t) else s
    case Close(id) =>
      if id in s.cleaned && id !in s.subs && id in s.feeds then
          s.(feeds := s.feeds[id := s.feeds[id].(closed := true)]) else s
    case Receive(id) =>
      if id in s.feeds && s.feeds[id].buf != [] then
        var f := s.feeds[id];
        s.(feeds := s.feeds[id := f.(buf := f.buf[1..], taken := f.taken + [Taken(f.buf[0], false)])])
      else s
  }

  function Exec(s: State, acts: seq<Action>): State
    decreases |acts|
  {
    if acts == [] then s else Step(Exec(s, acts[..|acts| - 1]), acts[|acts| - 1])
  }

  function Init(): State {
    State({}, map[], 0, map[], map[], {}, [], false)
  }

  // ---------------------------------------------------------------- no closed channel is touched

  ghost predicate Inv(s: State) {
    && !s.broken
    && (forall id :: id in s.feeds ==> id <= s.nextId && |s.feeds[id].buf| <= BUFFER_SIZE)
    && (forall id :: id in s.subs ==> id in s.feeds && !s.feeds[id].closed)
    && (forall t, id :: t in s.pubs && id in s.pubs[t].todo ==> id in s.subs)
    && (forall t :: t in s.pubs && !s.pubs[t].at.Choosing? ==> s.pubs[t].at.sub in s.pubs[t].todo)
  }

  lemma StepKeepsInv(s: State, a: Action)
    requires Inv(s)
    ensures Inv(Step(s, a))
  {
  }

  /** In every interleaving no publisher sends to or drains a closed channel, and no buffer overflows. */
  lemma {:induction false} NeverTouchesClosed(acts: seq<Action>)
    ensures Inv(Exec(Init(), acts))
    decreases |acts|
  {
    if acts != [] {
      NeverTouchesClosed(acts[..|acts| - 1]);
      StepKeepsInv(Exec(Init(), acts[..|acts| - 1]), acts[|acts| - 1]);
    }
  }

  // ---------------------------------------------------------------- what a subscriber gets to see

  /** Publishes do not overlap. */
  ghost predicate Serial(acts: seq<Action>)
    decreases |acts|
  {
    acts != [] ==>
      Serial(acts[..|acts| - 1]) && (acts[|acts| - 1].Begin? ==> Exec(Init(), acts[..|acts| - 1]).pubs == map[])
  }

  /** The events of the notes meant for a user, in order. */
  function Meant(notes: seq<Note>, user: User): seq<Event>
    decreases |notes|
  {
    if notes == [] then []
    else
      var n := notes[|notes| - 1];
      Meant(notes[..|notes| - 1], user) + if Targets(n, user) then [n.ev] else []
  }

  function Events(taken: seq<Taken>): seq<Event>
    decreases |taken|
  {
    if taken == [] then [] else Events(taken[..|taken| - 1]) + [taken[|taken| - 1].ev]
  }

  function Drops(taken: seq<Taken>): nat
    decreases |taken|
  {
    if taken == [] then 0 else Drops(taken[..|taken| - 1]) + if taken[|taken| - 1].dropped then 1 else 0
  }

  /** Everything ever put into the channel: what left it, then what is still there. */
  function Stream(f: Feed): seq<Event> {
    Events(f.taken) + f.buf
  }

  /** A publish in progress has not reached this subscriber yet. */
  ghost predicate Owed(s: State, id: SubId) {
    exists t :: t in s.pubs && id in s.pubs[t].todo
  }

  /** The notes a feed should have got so far. */
  ghost function Due(s: State, id: SubId): seq<Note>
    requires id in s.feeds
  {
    var upTo := if s.feeds[id].until.Some? then s.feeds[id].until.value
                else if Owed(s, id) then |s.history| - 1 else |s.history|;
    if s.feeds[id].since <= upTo <= |s.history| then s.history[s.feeds[id].since..upTo] else []
  }

  ghost predicate FeedOk(s: State, id: SubId)
    requires id in s.feeds
  {
    var f := s.feeds[id];
    && f.since <= |s.history|
    && (f.until.Some? ==> f.since <= f.until.value <= |s.history|)
    && (id in s.subs <==> f.until.None?)
    && Stream(f) == Meant(Due(s, id), f.user)
    && (Drops(f.taken) > 0 ==> Drops(f.taken) + BUFFER_SIZE <= |Stream(f)| + (if PushingAt(s, id) then 1 else 0))
  }

  ghost predicate PushingAt(s: State, id: SubId) {
    exists t :: t in s.pubs && s.pubs[t].at == Pushing(id)
  }

  ghost predicate PubOk(s: State, t: Thread)
    requires t in s.pubs
  {
    var p := s.pubs[t];
    && s.history != [] && p.note == s.history[|s.history| - 1]
    && s.pubs.Keys == {t}
    && (forall id :: id in p.todo ==>
        id in s.feeds && Targets(p.note, s.feeds[id].user) && s.feeds[id].since < |s.history|)
    && (p.at.Draining? && p.at.sub in s.feeds ==>
          var f := s.feeds[p.at.sub];
          Drops(f.taken) <= p.at.seen <= |f.taken| && |f.buf| + (|f.taken| - p.at.seen) == BUFFER_SIZE)
    && (p.at.Pushing? && p.at.sub in s.feeds ==> |s.feeds[p.at.sub].buf| < BUFFER_SIZE)
  }

  ghost predicate SerialInv(s: State) {
    && Inv(s)
    && (forall id :: id in s.feeds ==> FeedOk(s, id))
    && (forall t :: t in s.pubs ==> PubOk(s, t))
  }

  lemma MeantGrows(notes: seq<Note>, n: Note, user: User)
    ensures Meant(notes + [n], user) == Meant(notes, user) + if Targets(n, user) then [n.ev] else []
  {
    assert (notes + [n])[..|notes|] == notes;
  }

  lemma TakenGrows(taken: seq<Taken>, x: Taken)
    ensures Events(taken + [x]) == Events(taken) + [x.ev]
    ensures Drops(taken + [x]) == Drops(taken) + if x.dropped then 1 else 0
  {
    assert (taken + [x])[..|taken|] == taken;
  }

  lemma {:induction false} EventsLength(taken: seq<Taken>)
    ensures |Events(taken)| == |taken|
    decreases |taken|
  {
    if taken != [] {
      EventsLength(taken[..|taken| - 1]);
    }
  }

  /** Taking the head out of a channel does not change what went through it. */
  lemma TakeKeepsStream(f: Feed, dropped: bool)
    requires f.buf != []
    ensures Stream(f.(buf := f.buf[1..], taken := f.taken + [Taken(f.buf[0], dropped)])) == Stream(f)
  {
    TakenGrows(f.taken, Taken(f.buf[0], dropped));
    assert f.buf == [f.buf[0]] + f.buf[1..];
  }

  /** A new note that the feed has still to get, or is not meant to get, or that comes after its cleanup. */
  lemma NoteIsAnnounced(s: State, s': State, id: SubId, note: Note)
    requires id in s.feeds && FeedOk(s, id) && !Owed(s, id) && !PushingAt(s, id) && !PushingAt(s', id)
    requires s'.history == s.history + [note] && s'.feeds == s.feeds && s'.subs == s.subs
    requires s.feeds[id].until.None? ==> (Owed(s', id) <==> Targets(note, s.feeds[id].user))
    ensures FeedOk(s', id)
  {
    var f, h := s.feeds[id], s.history;
    if f.until.Some? {
      assert Due(s', id) == Due(s, id);
    } else {
      assert Due(s, id) == h[f.since..];
      assert s'.history[f.since..|h|] == h[f.since..];
      if Owed(s', id) {
        assert Due(s', id) == s'.history[f.since..|h|];
      } else {
        MeantGrows(h[f.since..], note, f.user);
        assert Due(s', id) == s'.history[f.since..|h| + 1] == h[f.since..] + [note];
      }
    }
  }

  lemma BeginFeed(s: State, a: Action, id: SubId)
    requires SerialInv(s) && a.Begin? && s.pubs == map[] && Step(s, a) != s && id in s.feeds
    ensures FeedOk(Step(s, a), id)
  {
    var s' := Step(s, a);
    assert FeedOk(s, id);
    assert s'.pubs == map[a.t := Pub(a.note, Matching(s, a.note), Choosing)];
    assert Owed(s', id) <==> id in Matching(s, a.note);
    NoteIsAnnounced(s, s', id, a.note);
  }

  /** A feed untouched by a step that publishes and subscribes nothing. */
  lemma SameFeed(s: State, s': State, id: SubId)
    requires id in s.feeds && id in s'.feeds && FeedOk(s, id)
    requires s'.history == s.history && (id in s.subs <==> id in s'.subs)
    requires Stream(s'.feeds[id]) == Stream(s.feeds[id]) && s'.feeds[id].user == s.feeds[id].user
    requires s'.feeds[id].since == s.feeds[id].since && s'.feeds[id].until == s.feeds[id].until
    requires s.feeds[id].until.None? ==> (Owed(s, id) <==> Owed(s', id))
    requires Drops(s'.feeds[id].taken) == Drops(s.feeds[id].taken) && (PushingAt(s, id) ==> PushingAt(s', id))
    ensures FeedOk(s', id)
  {
    assert Due(s, id) == Due(s', id);
  }

  lemma FeedGetsNote(s: State, s': State, id: SubId, note: Note)
    requires id in s.feeds && id in s'.feeds && FeedOk(s, id) && id in s.subs && id in s'.subs
    requires Owed(s, id) && !Owed(s', id) && !PushingAt(s', id)
    requires s'.history == s.history != [] && note == s.history[|s.history| - 1] && s.feeds[id].since < |s.history|
    requires Targets(note, s.feeds[id].user) && s'.feeds[id] == s.feeds[id].(buf := s.feeds[id].buf + [note.ev])
    ensures FeedOk(s', id)
  {
    var f, h := s.feeds[id], s.history;
    var earlier := h[f.since..|h| - 1];
    assert h[f.since..] == earlier + [note];
    MeantGrows(earlier, note, f.user);
    assert Due(s', id) == h[f.since..] && Due(s, id) == earlier;
    assert Stream(s'.feeds[id]) == Stream(f) + [note.ev];
  }

  lemma PushedOwn(s: State, t: Thread, id: SubId)
    requires SerialInv(s) && PubAt(s, t, id) && (s.pubs[t].at.Choosing? || s.pubs[t].at == Pushing(id))
    ensures FeedOk(Pushed(s, t, id), id)
  {
    var s', p := Pushed(s, t, id), s.pubs[t];
    assert PubOk(s, t) && FeedOk(s, id);
    assert id in p.todo && Owed(s, id);
    assert s'.pubs.Keys == {t} && s'.pubs[t].todo == p.todo - {id} && s'.pubs[t].at == Choosing;
    assert !Owed(s', id) && !PushingAt(s', id);
    FeedGetsNote(s, s', id, p.note);
  }

  lemma PushedOther(s: State, t: Thread, id: SubId, id': SubId)
    requires SerialInv(s) && PubAt(s, t, id) && (s.pubs[t].at.Choosing? || s.pubs[t].at == Pushing(id))
             && id' in s.feeds && id' != id
    ensures FeedOk(Pushed(s, t, id), id')
  {
    var s', p := Pushed(s, t, id), s.pubs[t];
    assert PubOk(s, t) && FeedOk(s, id');
    assert s'.pubs.Keys == {t} && s'.pubs[t].todo == p.todo - {id};
    assert Owed(s, id') <==> id' in p.todo;
    assert Owed(s', id') <==> id' in s'.pubs[t].todo;
    assert !PushingAt(s, id');
    SameFeed(s, s', id');
  }

  /** The dropped event counts against what the stream has beyond the buffer once the new one is in. */
  lemma FeedDrops(s: State, s': State, id: SubId)
    requires id in s.feeds && id in s'.feeds && FeedOk(s, id) && s.feeds[id].buf != []
    requires var f := s.feeds[id];
             s'.feeds[id] == f.(buf := f.buf[1..], taken := f.taken + [Taken(f.buf[0], true)])
             && Drops(f.taken) + BUFFER_SIZE <= |f.taken| + |f.buf|
    requires s'.history == s.history && s'.subs == s.subs && (Owed(s, id) <==> Owed(s', id)) && PushingAt(s', id)
    ensures FeedOk(s', id)
  {
    var f := s.feeds[id];
    TakeKeepsStream(f, true);
    TakenGrows(f.taken, Taken(f.buf[0], true));
    EventsLength(f.taken);
    assert Due(s, id) == Due(s', id);
  }

  lemma DrainedFeed(s: State, t: Thread, id: SubId)
    requires SerialInv(s) && PubAt(s, t, id) && s.pubs[t].at.Draining? && s.feeds[id].buf != []
    ensures FeedOk(StepDrain(s, t, id), id)
  {
    var s' := StepDrain(s, t, id);
    assert PubOk(s, t) && FeedOk(s, id);
    assert id in s.subs && id in s.pubs[t].todo;
    assert s'.pubs[t] == s.pubs[t].(at := Pushing(id));
    assert Owed(s, id) && Owed(s', id) && PushingAt(s', id);
    FeedDrops(s, s', id);
  }

  lemma ReceivedFeed(s: State, from: SubId, id: SubId)
    requires from in s.feeds && s.feeds[from].buf != [] && id in s.feeds && FeedOk(s, id)
    ensures FeedOk(Step(s, Receive(from)), id)
  {
    var s' := Step(s, Receive(from));
    assert s'.pubs == s.pubs && s'.history == s.history && s'.subs == s.subs;
    if from == id {
      ReceivedOwn(s, id);
    } else {
      assert s'.feeds[id] == s.feeds[id];
      SameFeed(s, s', id);
    }
  }

  lemma ReceivedOwn(s: State, id: SubId)
    requires id in s.feeds && FeedOk(s, id) && s.feeds[id].buf != []
    ensures FeedOk(Step(s, Receive(id)), id)
  {
    var f := s.feeds[id];
    var f' := f.(buf := f.buf[1..], taken := f.taken + [Taken(f.buf[0], false)]);
    TakeKeepsStream(f, false);
    TakenGrows(f.taken, Taken(f.buf[0], false));
    assert Step(s, Receive(id)).feeds[id] == f';
    SameFeed(s, Step(s, Receive(id)), id);
  }

  lemma EndedFeed(s: State, t: Thread, id: SubId)
    requires SerialInv(s) && t in s.pubs && s.pubs[t].at.Choosing? && s.pubs[t].todo == {} && id in s.feeds
    ensures FeedOk(Step(s, End(t)), id)
  {
    assert FeedOk(s, id) && PubOk(s, t);
    SameFeed(s, Step(s, End(t)), id);
  }

  lemma AcquiredFeed(s: State, t: Thread, id: SubId)
    requires SerialInv(s) && t in s.waiting && s.pubs == map[] && id in StepAcquire(s, t).feeds
    ensures FeedOk(StepAcquire(s, t), id)
  {
    var s' := StepAcquire(s, t);
    assert s'.pubs == map[] && !Owed(s', id) && !PushingAt(s', id);
    if id in s.feeds {
      AcquiredOldFeed(s, s', t, id);
    } else {
      var user := s.waiting[t].user;
      assert s'.feeds[id] == Feed(user, |s.history|, None, [], false, []);
      assert Due(s', id) == [];
    }
  }

  lemma AcquiredOldFeed(s: State, s': State, t: Thread, id: SubId)
    requires SerialInv(s) && t in s.waiting && s.pubs == map[] && id in s.feeds && s' == StepAcquire(s, t)
    ensures FeedOk(s', id)
  {
    assert FeedOk(s, id) && !Owed(s, id) && !PushingAt(s, id) && !Owed(s', id) && !PushingAt(s', id);
    var f, f' := s.feeds[id], s'.feeds[id];
    assert f' == f || (id in s.subs && f' == f.(until := Some(|s.history|)));
    assert f.until.None? ==> Due(s, id) == s.history[f.since..|s.history|];
    assert Due(s', id) == Due(s, id);
  }

  // ---------------------------------------------------------------- every step of a serial run

  lemma FeedsStayOk(s: State, a: Action, id: SubId)
    requires SerialInv(s) && (a.Begin? ==> s.pubs == map[]) && id in Step(s, a).feeds && Step(s, a) != s
    ensures FeedOk(Step(s, a), id)
  {
    var s' := Step(s, a);
    match a
    case Begin(_, _) => BeginFeed(s, a, id);
    case TrySend(t, u) => TriedFeed(s, t, u, id);
    case Drain(t) => StepDrainFeed(s, t, s.pubs[t].at.sub, id);
    case Push(t) => StepPushFeed(s, t, s.pubs[t].at.sub, id);
    case Acquire(t) => AcquiredFeed(s, t, id);
    case End(t) => EndedFeed(s, t, id);
    case Receive(u) =>
      assert FeedOk(s, id);
      ReceivedFeed(s, u, id);
    case _ =>
      assert FeedOk(s, id);
      QuietFeed(s, a, id);
  }

  lemma TriedFeed(s: State, t: Thread, u: SubId, id: SubId)
    requires SerialInv(s) && PubAt(s, t, u) && s.pubs[t].at.Choosing? && id in s.feeds
    ensures FeedOk(StepTrySend(s, t, u), id)
  {
    if |s.feeds[u].buf| >= BUFFER_SIZE {
      OnlyPlace(s, StepTrySend(s, t, u), t, id);
    } else if u == id {
      PushedOwn(s, t, id);
    } else {
      PushedOther(s, t, u, id);
    }
  }

  lemma StepDrainFeed(s: State, t: Thread, u: SubId, id: SubId)
    requires SerialInv(s) && PubAt(s, t, u) && s.pubs[t].at.Draining? && s.feeds[u].buf != [] && id in s.feeds
    ensures FeedOk(StepDrain(s, t, u), id)
  {
    if u == id {
      DrainedFeed(s, t, id);
    } else {
      OnlyPlace(s, StepDrain(s, t, u), t, id);
    }
  }

  lemma StepPushFeed(s: State, t: Thread, u: SubId, id: SubId)
    requires SerialInv(s) && PubAt(s, t, u) && s.pubs[t].at.Pushing? && id in s.feeds
    ensures FeedOk(Pushed(s, t, u), id)
  {
    if u == id {
      PushedOwn(s, t, id);
    } else {
      PushedOther(s, t, u, id);
    }
  }

  lemma QuietFeed(s: State, a: Action, id: SubId)
    requires id in s.feeds && FeedOk(s, id) && (a.WantSubscribe? || a.WantCleanup? || a.Close?)
    ensures FeedOk(Step(s, a), id)
  {
    var s' := Step(s, a);
    assert s'.pubs == s.pubs && s'.history == s.history && s'.subs == s.subs;
    assert s'.feeds[id] == s.feeds[id] || s'.feeds[id] == s.feeds[id].(closed := true);
    SameFeed(s, s', id);
  }

  /** The publisher moved on to another operation without sending: nothing changes for other subscribers. */
  lemma OnlyPlace(s: State, s': State, t: Thread, id: SubId)
    requires SerialInv(s) && t in s.pubs && id in s.feeds && id in s'.feeds && s'.feeds[id] == s.feeds[id]
    requires s' == s.(pubs := s'.pubs, feeds := s'.feeds) && s'.pubs.Keys == s.pubs.Keys
    requires s'.pubs[t].todo == s.pubs[t].todo && s.pubs[t].at != Pushing(id)
    ensures FeedOk(s', id)
  {
    assert PubOk(s, t) && FeedOk(s, id);
    assert Owed(s, id) <==> id in s.pubs[t].todo;
    assert Owed(s', id) <==> id in s'.pubs[t].todo;
    assert !PushingAt(s, id);
    SameFeed(s, s', id);
  }

  lemma PubsStayOk(s: State, a: Action, t: Thread)
    requires SerialInv(s) && (a.Begin? ==> s.pubs == map[]) && t in Step(s, a).pubs && Step(s, a) != s
    ensures PubOk(Step(s, a), t)
  {
    if t !in s.pubs {
      NewPubOk(s, a, t);
    } else {
      assert PubOk(s, t);
      match a
      case Receive(id) => ReceivedPub(s, t, id);
      case TrySend(_, id) => TriedPub(s, t, id);
      case Drain(_) => DrainedPub(s, t, s.pubs[t].at.sub);
      case Push(_) => PushedPub(s, t, s.pubs[t].at.sub);
      case Close(_) => QuietPub(s, a, t);
      case WantSubscribe(_, _) => QuietPub(s, a, t);
      case WantCleanup(_, _) => QuietPub(s, a, t);
      case _ =>
    }
  }

  lemma ReceivedPub(s: State, t: Thread, id: SubId)
    requires t in s.pubs && PubOk(s, t) && id in s.feeds && s.feeds[id].buf != []
    ensures PubOk(Step(s, Receive(id)), t)
  {
    TakenGrows(s.feeds[id].taken, Taken(s.feeds[id].buf[0], false));
  }

  lemma TriedPub(s: State, t: Thread, id: SubId)
    requires Inv(s) && t in s.pubs && PubOk(s, t) && PubAt(s, t, id) && s.pubs[t].at.Choosing?
    ensures PubOk(StepTrySend(s, t, id), t)
  {
    DropsBounded(s.feeds[id].taken);
    if |s.feeds[id].buf| < BUFFER_SIZE {
      PushedPub(s, t, id);
    }
  }

  lemma PushedPub(s: State, t: Thread, id: SubId)
    requires t in s.pubs && PubOk(s, t) && PubAt(s, t, id)
    ensures PubOk(Pushed(s, t, id), t)
  {
    var s' := Pushed(s, t, id);
    assert s'.pubs[t].at == Choosing && s'.pubs.Keys == {t};
  }

  lemma DrainedPub(s: State, t: Thread, id: SubId)
    requires Inv(s) && t in s.pubs && PubOk(s, t) && PubAt(s, t, id) && s.pubs[t].at.Draining? && s.feeds[id].buf != []
    ensures PubOk(StepDrain(s, t, id), t)
  {
    var s' := StepDrain(s, t, id);
    assert s'.pubs.Keys == {t};
  }

  lemma QuietPub(s: State, a: Action, t: Thread)
    requires t in s.pubs && PubOk(s, t) && (a.WantSubscribe? || a.WantCleanup? || a.Close?)
    ensures PubOk(Step(s, a), t)
  {
  }

  lemma NewPubOk(s: State, a: Action, t: Thread)
    requires SerialInv(s) && (a.Begin? ==> s.pubs == map[]) && t !in s.pubs && t in Step(s, a).pubs
    ensures PubOk(Step(s, a), t)
  {
    var s' := Step(s, a);
    assert a.Begin? && s'.pubs.Keys == {t};
    forall id | id in s'.pubs[t].todo
      ensures s'.feeds[id].since < |s'.history|
    {
      assert FeedOk(s, id);
    }
  }

  lemma {:induction false} DropsBounded(taken: seq<Taken>)
    ensures Drops(taken) <= |taken|
    decreases |taken|
  {
    if taken != [] {
      DropsBounded(taken[..|taken| - 1]);
    }
  }

  lemma StepKeepsSerial(s: State, a: Action)
    requires SerialInv(s) && (a.Begin? ==> s.pubs == map[])
    ensures SerialInv(Step(s, a))
  {
    var s' := Step(s, a);
    if s' != s {
      StepKeepsInv(s, a);
      forall id | id in s'.feeds
        ensures FeedOk(s', id)
      {
        FeedsStayOk(s, a, id);
      }
      forall t | t in s'.pubs
        ensures PubOk(s', t)
      {
        PubsStayOk(s, a, t);
      }
    }
  }

  lemma {:induction false} SerialRunInv(acts: seq<Action>)
    requires Serial(acts)
    ensures SerialInv(Exec(Init(), acts))
    decreases |acts|
  {
    if acts != [] {
      SerialRunInv(acts[..|acts| - 1]);
      StepKeepsSerial(Exec(Init(), acts[..|acts| - 1]), acts[|acts| - 1]);
    }
  }

  /**
   When publishes do not overlap: what a subscriber received and dropped, followed by
   what is pending, is exactly the events meant for its user since it subscribed, in
   order; drops are always of the oldest pending event, and there are never more of
   them than the stream exceeds the buffer by.
   */
  lemma SubscriberSeesItsStream(acts: seq<Action>, id: SubId)
    requires Serial(acts) && id in Exec(Init(), acts).subs && Exec(Init(), acts).pubs == map[]
    ensures var s := Exec(Init(), acts);
            id in s.feeds &&
            var f := s.feeds[id];
            && f.since <= |s.history|
            && Events(f.taken) + f.buf == Meant(s.history[f.since..], f.user)
            && |f.buf| <= BUFFER_SIZE
            && (Drops(f.taken) > 0 ==> Drops(f.taken) + BUFFER_SIZE <= |Meant(s.history[f.since..], f.user)|)
  {
    SerialRunInv(acts);
    var s := Exec(Init(), acts);
    assert FeedOk(s, id) && !Owed(s, id) && !PushingAt(s, id);
    assert Due(s, id) == s.history[s.feeds[id].since..];
  }

  /** When publishes do not overlap, the send after a drain finds room. */
  lemma PushNeverBlocks(acts: seq<Action>, t: Thread)
    requires Serial(acts) && t in Exec(Init(), acts).pubs && Exec(Init(), acts).pubs[t].at.Pushing?
    ensures var s := Exec(Init(), acts);
            Step(s, Push(t)).pubs[t].at == Choosing
  {
    SerialRunInv(acts);
    var s := Exec(Init(), acts);
    PushHasRoom(s, t, s.pubs[t].at.sub);
  }

  lemma PushHasRoom(s: State, t: Thread, id: SubId)
    requires SerialInv(s) && t in s.pubs && s.pubs[t].at == Pushing(id)
    ensures Step(s, Push(t)).pubs[t].at == Choosing
  {
    assert PubOk(s, t);
    assert id in s.pubs[t].todo && id in s.subs && !s.feeds[id].closed;
    assert PubAt(s, t, id);
  }

  /**
   Then the drain itself blocks exactly when the receiver has emptied the whole buffer since
   the send found it full.
   */
  lemma DrainBlocksIffEmptied(acts: seq<Action>, t: Thread)
    requires Serial(acts) && t in Exec(Init(), acts).pubs && Exec(Init(), acts).pubs[t].at.Draining?
    ensures var s := Exec(Init(), acts);
            var p := s.pubs[t].at;
            p.sub in s.feeds && (Step(s, Drain(t)) == s <==> |s.feeds[p.sub].taken| == p.seen + BUFFER_SIZE)
  {
    SerialRunInv(acts);
    assert PubOk(Exec(Init(), acts), t);
  }

  /** With nothing in between, the channel operations of one send are the sequential BusSend. */
  lemma UninterruptedSend(s: State, t: Thread, id: SubId)
    requires PubAt(s, t, id) && s.pubs[t].at.Choosing? && !s.feeds[id].closed && |s.feeds[id].buf| <= BUFFER_SIZE
    ensures var s1 := Step(s, TrySend(t, id));
            var s2 := if s1.pubs[t].at.Choosing? then s1 else Step(Step(s1, Drain(t)), Push(t));
            && s2.feeds == s.feeds[id := s2.feeds[id]]
            && s2.feeds[id].buf == Enqueue(s.feeds[id].buf, s.pubs[t].note.ev)
            && s2.pubs[t] == s.pubs[t].(todo := s.pubs[t].todo - {id})
  {
    if |s.feeds[id].buf| == BUFFER_SIZE {
      var s1 := Step(s, TrySend(t, id));
      assert PubAt(s1, t, id);
      var s2 := Step(s1, Drain(t));
      assert PubAt(s2, t, id);
    }
  }

  // ---------------------------------------------------------------- and then the bus stands still

  /** The publisher waits for an event to drop, a writer waits for the publisher, and everyone else for the writer. */
  ghost predicate Stuck(s: State, t: Thread, id: SubId) {
    && t in s.pubs && s.pubs.Keys == {t} && s.pubs[t].at.Draining? && s.pubs[t].at.sub == id
    && id in s.feeds && s.feeds[id].buf == [] && !s.feeds[id].closed && id in s.subs
    && s.waiting != map[]
  }

  lemma {:induction false} StuckForever(s: State, acts: seq<Action>, t: Thread, id: SubId)
    requires Stuck(s, t, id)
    ensures Stuck(Exec(s, acts), t, id)
    ensures Exec(s, acts).history == s.history && Exec(s, acts).subs == s.subs && Exec(s, acts).pubs == s.pubs
    decreases |acts|
  {
    if acts != [] {
      StuckForever(s, acts[..|acts| - 1], t, id);
    }
  }

  ghost predicate Reached(s: State) {
    exists acts :: Serial(acts) && Exec(Init(), acts) == s
  }

  lemma ReachStep(s: State, a: Action)
    requires Reached(s) && (a.Begin? ==> s.pubs == map[])
    ensures Reached(Step(s, a))
  {
    var acts :| Serial(acts) && Exec(Init(), acts) == s;
    assert (acts + [a])[..|acts + [a]| - 1] == acts;
    assert Serial(acts + [a]) && Exec(Init(), acts + [a]) == Step(s, a);
  }

  /** One anonymous subscriber with n pending events. */
  ghost function Pending(n: nat): State {
    State({1}, map[1 := Feed("", 0, None, seq(n, (i: nat) => "e"), false, [])], 1, map[], map[], {},
          seq(n, (i: nat) => Note("e", None)), false)
  }

  lemma {:induction false} PendingReached(n: nat)
    requires n <= BUFFER_SIZE
    ensures Reached(Pending(n))
  {
    if n == 0 {
      assert Serial([]) && Exec(Init(), []) == Init();
      ReachStep(Init(), WantSubscribe(0, ""));
      var s1 := Step(Init(), WantSubscribe(0, ""));
      ReachStep(s1, Acquire(0));
      var s2 := Step(s1, Acquire(0));
      assert s2.waiting == map[] && s2.subs == {1} && s2.history == Pending(0).history;
      assert s2.feeds[1].buf == Pending(0).feeds[1].buf && s2.feeds == Pending(0).feeds;
    } else {
      PendingReached(n - 1);
      OneMorePending(n - 1);
    }
  }

  lemma OneMorePending(n: nat)
    requires n < BUFFER_SIZE && Reached(Pending(n))
    ensures Reached(Pending(n + 1))
  {
    var note := Note("e", None);
    var s0, t := Pending(n), Pending(n + 1);
    ReachStep(s0, Begin(0, note));
    var s1 := s0.(pubs := map[0 := Pub(note, {1}, Choosing)], history := s0.history + [note]);
    assert Matching(s0, note) == {1};
    assert Step(s0, Begin(0, note)) == s1;
    ReachStep(s1, TrySend(0, 1));
    var f := s0.feeds[1];
    var s2 := s1.(feeds := map[1 := f.(buf := f.buf + ["e"])], pubs := map[0 := Pub(note, {}, Choosing)]);
    assert {1} - {1} == s2.pubs[0].todo;
    assert s1.feeds[1 := s2.feeds[1]] == s2.feeds && s1.pubs[0 := s2.pubs[0]] == s2.pubs;
    assert Step(s1, TrySend(0, 1)) == s2;
    ReachStep(s2, End(0));
    assert s2.pubs - {0} == map[];
    assert s2.feeds[1].buf == t.feeds[1].buf && s2.history == t.history;
    assert Step(s2, End(0)) == t;
  }

  lemma {:induction false} ReceiveAll(s: State, t: Thread, id: SubId, n: nat) returns (s': State)
    requires Reached(s) && id in s.feeds && |s.feeds[id].buf| == n && id in s.subs && !s.feeds[id].closed
    requires t in s.pubs && s.pubs.Keys == {t} && s.pubs[t].at.Draining? && s.pubs[t].at.sub == id
    ensures Reached(s') && s'.pubs == s.pubs && id in s'.feeds && s'.feeds[id].buf == [] && id in s'.subs
            && !s'.feeds[id].closed
    decreases n
  {
    if n == 0 {
      s' := s;
    } else {
      ReachStep(s, Receive(id));
      s' := ReceiveAll(Step(s, Receive(id)), t, id, n - 1);
    }
  }

  /**
   The standstill is reachable without overlapping publishes: a publisher finds the
   buffer full, the receiver empties it, and someone asks for the write lock.  From then
   on no publish, subscription or cleanup ever takes effect.
   */
  lemma StandstillIsReached() returns (s: State, t: Thread, id: SubId)
    ensures Reached(s) && Stuck(s, t, id)
    ensures forall acts ::
              Exec(s, acts).history == s.history && Exec(s, acts).subs == s.subs && Exec(s, acts).pubs == s.pubs
  {
    PendingReached(BUFFER_SIZE);
    t, id := 0, 1;
    var s0 := Pending(BUFFER_SIZE);
    ReachStep(s0, Begin(t, Note("e", None)));
    var s1 := Step(s0, Begin(t, Note("e", None)));
    assert 1 in s1.pubs[t].todo;
    ReachStep(s1, TrySend(t, id));
    var s2 := Step(s1, TrySend(t, id));
    var s3 := ReceiveAll(s2, t, id, BUFFER_SIZE);
    var other := 7;
    ReachStep(s3, WantSubscribe(other, ""));
    s := Step(s3, WantSubscribe(other, ""));
    assert other !in s3.pubs;
    forall acts
      ensures Exec(s, acts).history == s.history && Exec(s, acts).subs == s.subs && Exec(s, acts).pubs == s.pubs
    {
      StuckForever(s, acts, t, id);
    }
  }
  /** A subscriber with pending events leaves: its channel is cleaned up and closed, and later publishes pass it by. */
  lemma LeavesAndIsClosed() returns (s: State)
    ensures Reached(s) && 1 in s.feeds && s.feeds[1].closed && 1 !in s.subs && |s.feeds[1].buf| == 1
    ensures var s' := Step(s, Begin(0, Note("e", None))); Reached(s') && 0 in s'.pubs && s'.pubs[0].todo == {}
  {
    PendingReached(1);
    var s0 := Pending(1);
    ReachStep(s0, WantCleanup(0, 1));
    var s1 := Step(s0, WantCleanup(0, 1));
    assert s1.waiting == map[0 := Cleaning(1)] && s1.cleaned == {1};
    ReachStep(s1, Acquire(0));
    var s2 := Step(s1, Acquire(0));
    assert s2.waiting == map[] && s2.subs == {} && s2.feeds[1].buf == s0.feeds[1].buf;
    ReachStep(s2, Close(1));
    s := Step(s2, Close(1));
    ReachStep(s, Begin(0, Note("e", None)));
    assert Matching(s, Note("e", None)) == {};
  }
}
