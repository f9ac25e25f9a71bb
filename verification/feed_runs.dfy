/** A client following a feed through drops and reconnects (feed/feed.go). */
module FeedRuns {
  import opened Basics
  import opened Feed

  /** The client's present connection: its channel, and the replay not yet consumed. */
  datatype Link = Link(sub: SubId, todo: seq<Feed.Event>)

  /** A client that follows the feed from sequence number `first`, which it knew or which
      its first attach returned, and has since received `got`. */
  datatype Client = Client(first: nat, got: seq<Feed.Event>, link: Option<Link>) {
    function LastSeen(): nat {
      first + |got|
    }
  }

  datatype World = World(cap: nat, st: State, client: Client)

  datatype Step =
    | Committed(events: seq<Feed.Event>)
    | OtherAttach(id: SubId)
    | OtherReceive(id: SubId)
    | OtherDetach(id: SubId)
    | DetachEverybody
    | Attach(id: SubId)   // subscribe without a number and follow from the one returned
    | Connect(id: SubId)  // reconnect from the last seen number; no reset reported
    | Take                // consume the next replayed or delivered event
    | Leave               // the connection ends: dropped, or closed by either side

  ghost predicate Enabled(w: World, a: Step) {
    match a
    case Committed(_) => true
    case OtherAttach(id) => id !in w.st.chans
    case OtherReceive(id) => id in w.st.chans && |w.st.chans[id].queue| > 0 && !IsLink(w.client, id)
    case OtherDetach(_) => true
    case DetachEverybody => true
    case Attach(id) => w.client.link.None? && w.client.got == [] && id !in w.st.chans
    case Connect(id) => CanReconnect(w, id) && w.client.LastSeen() >= 1
    case Take =>
      && w.client.link.Some? && w.client.link.value.sub in w.st.chans
      && (|w.client.link.value.todo| > 0 || |w.st.chans[w.client.link.value.sub].queue| > 0)
    case Leave => w.client.link.Some?
  }

  ghost predicate CanReconnect(w: World, id: SubId) {
    w.client.link.None? && id !in w.st.chans && !Stale(w.st.log, w.cap, w.client.LastSeen())
  }

  predicate IsLink(c: Client, id: SubId) {
    c.link.Some? && c.link.value.sub == id
  }

  ghost function Apply(w: World, a: Step): World
    requires Enabled(w, a)
  {
    match a
    case Committed(events) => w.(st := Publish(w.st, events))
    case OtherAttach(id) => w.(st := Subscribe(w.st, id))
    case OtherReceive(id) => w.(st := w.st.(chans := w.st.chans[id := Receive(w.st.chans[id])]))
    case OtherDetach(id) => w.(st := Unsubscribe(w.st, id))
    case DetachEverybody => w.(st := CloseAll(w.st))
    case Attach(id) => w.(st := Subscribe(w.st, id), client := Client(|w.st.log|, [], Some(Link(id, []))))
    case Connect(id) => Reconnected(w, id)
    case Take => AfterTake(w)
    case Leave => w.(st := Unsubscribe(w.st, w.client.link.value.sub), client := w.client.(link := None))
  }

  ghost function Reconnected(w: World, id: SubId): World {
    w.(st := Subscribe(w.st, id),
       client := w.client.(link := Some(Link(id, Replay(w.st.log, w.cap, w.client.LastSeen())))))
  }

  ghost function AfterTake(w: World): World
    requires Enabled(w, Take)
  {
    var Link(sub, todo) := w.client.link.value;
    if |todo| > 0 then
      w.(client := w.client.(got := w.client.got + [todo[0]], link := Some(Link(sub, todo[1..]))))
    else
      var c := w.st.chans[sub];
      w.(st := w.st.(chans := w.st.chans[sub := Receive(c)]), client := w.client.(got := w.client.got + [c.queue[0]]))
  }

  // ---- The invariant ----

  /** Events carry their position, counted from one. */
  ghost predicate Numbered(log: seq<Feed.Event>) {
    forall k :: 0 <= k < |log| ==> log[k].sq == k + 1
  }

  /** A channel holds a contiguous stretch of the log from where it attached; a live
      one reaches to the end. */
  ghost predicate ChanOk(log: seq<Feed.Event>, c: Channel) {
    && c.start + |c.taken| + |c.queue| <= |log|
    && c.taken + c.queue == log[c.start..c.start + |c.taken| + |c.queue|]
    && |c.queue| <= SUBSCRIBER_BUF
    && (!c.closed ==> c.start + |c.taken| + |c.queue| == |log|)
  }

  ghost predicate FeedOk(st: State) {
    Numbered(st.log) && forall id <- st.chans :: ChanOk(st.log, st.chans[id])
  }

  /** What was received is the log from `first` on. */
  ghost predicate Received(log: seq<Feed.Event>, first: nat, got: seq<Feed.Event>) {
    first + |got| <= |log| ==> got == log[first..first + |got|]
  }

  /** What is still to be replayed lies between the last event seen and the place where the
      channel attached; after that the channel itself goes on from there. */
  ghost predicate LinkOk(log: seq<Feed.Event>, last: nat, todo: seq<Feed.Event>, ch: Channel) {
    if |todo| > 0
    then ch.taken == [] && last + |todo| == ch.start <= |log| && todo == log[last..ch.start]
    else last == ch.start + |ch.taken|
  }

  ghost predicate ClientOk(w: World) {
    var c := w.client;
    && (c.got != [] || c.link.Some? ==> c.LastSeen() <= |w.st.log|)
    && Received(w.st.log, c.first, c.got)
    && (c.link.Some? ==>
          && c.link.value.sub in w.st.chans
          && LinkOk(w.st.log, c.LastSeen(), c.link.value.todo, w.st.chans[c.link.value.sub]))
  }

  ghost predicate Inv(w: World) {
    FeedOk(w.st) && ClientOk(w)
  }

  lemma DeliverKeeps(log: seq<Feed.Event>, c: Channel, e: Feed.Event)
    requires ChanOk(log, c)
    ensures ChanOk(log + [e], Deliver(c, e))
  {
    var log' := log + [e];
    var n := c.start + |c.taken| + |c.queue|;
    assert log'[c.start..n] == log[c.start..n];
    if !c.closed && |c.queue| < SUBSCRIBER_BUF {
      assert log'[c.start..n + 1] == log[c.start..n] + [e];
    }
  }

  /** Publishing leaves the client's stretch of the log, and what it has taken, alone. */
  ghost predicate Grown(st: State, st': State) {
    && st.log <= st'.log && st'.chans.Keys == st.chans.Keys
    && (forall id <- st.chans :: st'.chans[id].start == st.chans[id].start && st'.chans[id].taken == st.chans[id].taken)
  }

  lemma PublishOneKeeps(st: State, e: Feed.Event)
    requires FeedOk(st)
    ensures FeedOk(PublishOne(st, e)) && Grown(st, PublishOne(st, e))
  {
    var e' := e.(sq := |st.log| + 1);
    forall id | id in st.chans
      ensures ChanOk(st.log + [e'], Deliver(st.chans[id], e'))
      ensures Deliver(st.chans[id], e').start == st.chans[id].start
      ensures Deliver(st.chans[id], e').taken == st.chans[id].taken
    {
      DeliverKeeps(st.log, st.chans[id], e');
    }
    hide ChanOk, Deliver;
  }

  lemma {:induction false} PublishKeeps(st: State, events: seq<Feed.Event>)
    requires FeedOk(st)
    ensures FeedOk(Publish(st, events)) && Grown(st, Publish(st, events))
  {
    hide FeedOk;
    if |events| > 0 {
      var most := events[..|events| - 1];
      PublishKeeps(st, most);
      PublishOneKeeps(Publish(st, most), events[|events| - 1]);
    }
  }

  lemma GrownClient(w: World, st: State)
    requires ClientOk(w) && Grown(w.st, st)
    ensures ClientOk(w.(st := st))
  {
  }

  lemma ConnectKeeps(w: World, id: SubId)
    requires Inv(w) && CanReconnect(w, id) && (w.client.LastSeen() >= 1 || w.st.log == [])
    ensures Inv(Reconnected(w, id))
  {
  }

  /** The client's stretch of the log grows by the event after it. */
  lemma ReceiveMore(log: seq<Feed.Event>, first: nat, got: seq<Feed.Event>)
    requires Received(log, first, got) && first + |got| < |log|
    ensures Received(log, first, got + [log[first + |got|]])
  {
    var n := first + |got|;
    assert log[first..n + 1] == log[first..n] + [log[n]];
  }

  lemma ReplayMore(log: seq<Feed.Event>, last: nat, todo: seq<Feed.Event>, ch: Channel)
    requires LinkOk(log, last, todo, ch) && |todo| > 0
    ensures last < |log| && todo[0] == log[last] && LinkOk(log, last + 1, todo[1..], ch)
  {
    assert log[last..ch.start][1..] == log[last + 1..ch.start];
  }

  /** Taking a replayed event. */
  lemma ReplayKeeps(w: World)
    requires ClientOk(w) && Enabled(w, Take) && |w.client.link.value.todo| > 0
    ensures ClientOk(AfterTake(w))
  {
    hide Received, LinkOk;
    var c := w.client;
    ReplayMore(w.st.log, c.LastSeen(), c.link.value.todo, w.st.chans[c.link.value.sub]);
    ReceiveMore(w.st.log, c.first, c.got);
  }

  /** The next event in a channel is the one after those taken. */
  lemma QueueHead(log: seq<Feed.Event>, c: Channel)
    requires ChanOk(log, c) && |c.queue| > 0
    ensures c.start + |c.taken| < |log| && c.queue[0] == log[c.start + |c.taken|]
  {
    assert (c.taken + c.queue)[|c.taken|] == c.queue[0];
  }

  /** Taking a delivered event. */
  lemma DeliveryKeeps(w: World)
    requires ClientOk(w) && Enabled(w, Take) && |w.client.link.value.todo| == 0
    requires ChanOk(w.st.log, w.st.chans[w.client.link.value.sub])
    ensures ClientOk(AfterTake(w))
  {
    hide Received, ChanOk;
    var c := w.client;
    QueueHead(w.st.log, w.st.chans[c.link.value.sub]);
    ReceiveMore(w.st.log, c.first, c.got);
  }

  lemma TakeKeeps(w: World)
    requires Inv(w) && Enabled(w, Take)
    ensures Inv(AfterTake(w))
  {
    hide ClientOk;
    var sub := w.client.link.value.sub;
    assert ChanOk(w.st.log, w.st.chans[sub]);
    if |w.client.link.value.todo| > 0 {
      hide FeedOk;
      ReplayKeeps(w);
    } else {
      ReceiveKeeps(w.st.log, w.st.chans[sub]);
      DeliveryKeeps(w);
      hide ChanOk;
    }
  }

  lemma ReceiveKeeps(log: seq<Feed.Event>, c: Channel)
    requires ChanOk(log, c) && |c.queue| > 0
    ensures ChanOk(log, Receive(c))
  {
    assert c.taken + [c.queue[0]] + c.queue[1..] == c.taken + c.queue;
  }

  /** A client notices other channels only through the log. */
  lemma LinkKept(w: World, st: State)
    requires ClientOk(w) && st.log == w.st.log
    requires w.client.link.Some? ==>
               var sub := w.client.link.value.sub;
               sub in w.st.chans && sub in st.chans
               && st.chans[sub].start == w.st.chans[sub].start && st.chans[sub].taken == w.st.chans[sub].taken
    ensures ClientOk(w.(st := st))
  {
    hide Received;
  }

  lemma ClosedOk(log: seq<Feed.Event>, c: Channel)
    requires ChanOk(log, c)
    ensures !c.closed ==> ChanOk(log, Close(c))
  {
  }

  lemma OpenedOk(log: seq<Feed.Event>)
    ensures ChanOk(log, Channel(|log|, [], [], false))
  {
  }

  lemma OtherKeeps(w: World, a: Step)
    requires Inv(w) && Enabled(w, a) && (a.OtherAttach? || a.OtherReceive? || a.OtherDetach? || a.DetachEverybody?)
    ensures Inv(Apply(w, a))
  {
    var st := Apply(w, a).st;
    assert w.client.link.Some? ==> w.client.link.value.sub in w.st.chans;
    hide ClientOk, ChanOk;
    OpenedOk(w.st.log);
    forall id | id in st.chans ensures ChanOk(st.log, st.chans[id]) {
      if id in w.st.chans {
        ClosedOk(w.st.log, w.st.chans[id]);
        if a.OtherReceive? && a.id == id { ReceiveKeeps(w.st.log, w.st.chans[id]); }
      }
    }
    LinkKept(w, st);
  }

  lemma StepKeeps(w: World, a: Step)
    requires Inv(w) && Enabled(w, a)
    ensures Inv(Apply(w, a))
  {
    match a
    case Committed(events) =>
      PublishKeeps(w.st, events);
      GrownClient(w, Publish(w.st, events));
    case Attach(_) =>
    case Connect(id) => ConnectKeeps(w, id);
    case Take => TakeKeeps(w);
    case Leave =>
    case _ => hide FeedOk, ClientOk; OtherKeeps(w, a);
  }

  // ---- Runs ----

  ghost function Next(w: World, a: Step): (v: World)
    requires Inv(w) && Enabled(w, a)
    ensures Inv(v)
  {
    StepKeeps(w, a); Apply(w, a)
  }

  ghost predicate Legal(w: World, steps: seq<Step>)
    requires Inv(w)
    decreases |steps|
  {
    |steps| == 0 || (Enabled(w, steps[0]) && Legal(Next(w, steps[0]), steps[1..]))
  }

  ghost function Run(w: World, steps: seq<Step>): (r: World)
    requires Inv(w) && Legal(w, steps)
    ensures Inv(r)
    decreases |steps|
  {
    if |steps| == 0 then w else Run(Next(w, steps[0]), steps[1..])
  }

  /** A feed as it is created, and a client that knows sequence number `first`, or none
      if that is zero. */
  ghost function Start(cap: nat, first: nat): (w: World)
    ensures Inv(w)
  {
    World(cap, State([], map[]), Client(first, [], None))
  }

  /** Across any number of drops and reconnects, with no reset reported, everything
      the client received, replays and deliveries together, is one contiguous slice of
      the log: no gap, no duplicate. It starts right after the number the client began
      with, or was given when it last attached without one, and the number it would
      reconnect from is that of its last event. */
  lemma NoGapNoDuplicate(cap: nat, first: nat, steps: seq<Step>)
    requires Legal(Start(cap, first), steps)
    ensures var w := Run(Start(cap, first), steps); var c := w.client;
            && ((forall a <- steps :: !a.Attach?) ==> c.first == first)
            && (c.got != [] ==>
                  && c.LastSeen() <= |w.st.log|
                  && c.got == w.st.log[c.first..c.LastSeen()]
                  && c.got[0].sq == c.first + 1
                  && c.got[|c.got| - 1].sq == c.LastSeen())
  {
    if forall a <- steps :: !a.Attach? {
      FirstFixed(Start(cap, first), steps);
    }
    hide FeedOk, ClientOk;
    if Run(Start(cap, first), steps).client.got != [] {
      Stretch(Run(Start(cap, first), steps));
    }
  }

  lemma Stretch(w: World)
    requires Inv(w) && w.client.got != []
    ensures var c := w.client;
            && c.LastSeen() <= |w.st.log|
            && c.got == w.st.log[c.first..c.LastSeen()]
            && c.got[0].sq == c.first + 1
            && c.got[|c.got| - 1].sq == c.LastSeen()
  {
    hide ChanOk, LinkOk;
    var c := w.client;
    assert c.got[0] == w.st.log[c.first] && c.got[|c.got| - 1] == w.st.log[c.LastSeen() - 1];
  }

  lemma {:induction false} FirstFixed(w: World, steps: seq<Step>)
    requires Inv(w) && Legal(w, steps) && forall a <- steps :: !a.Attach?
    ensures Run(w, steps).client.first == w.client.first
    decreases |steps|
  {
    hide FeedOk, ClientOk;
    if |steps| > 0 {
      assert steps[0] in steps;
      FirstFixed(Next(w, steps[0]), steps[1..]);
    }
  }

  /** Why a reconnect needs a number: the next event received is the one after the last
      seen if and only if that number is at least one, or nothing has been published.
      From zero, which an attach to an empty feed returns, the feed replays nothing. */
  lemma ReconnectExact(w: World, id: SubId, e: Feed.Event)
    requires Inv(w) && CanReconnect(w, id)
    ensures var u := Reconnected(w, id); var v := u.(st := PublishOne(u.st, e));
            && Enabled(v, Take)
            && (AfterTake(v).client.got == w.client.got + [v.st.log[w.client.LastSeen()]] <==>
                  w.client.LastSeen() >= 1 || w.st.log == [])
  {
    var u := Reconnected(w, id);
    var v := u.(st := PublishOne(u.st, e));
    var n := w.client.LastSeen();
    if n < |w.st.log| {
      assert v.st.log[n].sq == n + 1 && v.st.log[|w.st.log|].sq == |w.st.log| + 1;
    }
    assert AfterTake(v).client.got[|w.client.got|] == v.st.log[if n >= 1 then n else |w.st.log|];
  }

  /** The failing input: a client attaches to an empty feed, is given number zero and
      drops. The event committed while it is away is not replayed to it, and the next
      one it receives is the second. */
  lemma ZeroSkips(cap: nat, id: SubId, id': SubId, e: Feed.Event, f: Feed.Event)
    requires cap > 0 && id != id'
    ensures var away := [Attach(id), Leave, Committed([e])];
            && Legal(Start(cap, 0), away)
            && var w := Run(Start(cap, 0), away);
               && |w.st.log| == 1 && w.client.LastSeen() == 0 && CanReconnect(w, id')
               && var u := Reconnected(w, id');
                  && u.client.link == Some(Link(id', []))
                  && var v := u.(st := PublishOne(u.st, f));
                     Enabled(v, Take) && |AfterTake(v).client.got| == 1 && AfterTake(v).client.got[0].sq == 2
  {
    hide Legal, Run, Inv, Apply, Enabled, CanReconnect, Reconnected, AfterTake;
    Away(cap, id, e);
    SkipsFrom(Run(Start(cap, 0), [Attach(id), Leave, Committed([e])]), id', f);
  }

  lemma Away(cap: nat, id: SubId, e: Feed.Event)
    ensures var away := [Attach(id), Leave, Committed([e])];
            && Legal(Start(cap, 0), away)
            && var w := Run(Start(cap, 0), away);
               w.cap == cap && |w.st.log| == 1 && w.st.chans.Keys == {id} && w.client == Client(0, [], None)
  {
    var w := Start(cap, 0);
    assert [e][..0] == [];
    InTurn(w, Attach(id), Leave, Committed([e]));
    hide Legal, Run, FeedOk, ClientOk;
    var st := Next(Next(w, Attach(id)), Leave).st;
    assert Publish(st, [e]) == PublishOne(st, e);
  }

  lemma SkipsFrom(w: World, id: SubId, f: Feed.Event)
    requires w.cap > 0 && |w.st.log| == 1 && id !in w.st.chans && w.client == Client(0, [], None)
    ensures CanReconnect(w, id)
    ensures var u := Reconnected(w, id); var v := u.(st := PublishOne(u.st, f));
            && u.client.link == Some(Link(id, []))
            && Enabled(v, Take) && |AfterTake(v).client.got| == 1 && AfterTake(v).client.got[0].sq == 2
  {
  }

  lemma InTurn(w: World, a: Step, b: Step, c: Step)
    requires Inv(w) && Enabled(w, a) && Enabled(Next(w, a), b) && Enabled(Next(Next(w, a), b), c)
    ensures Legal(w, [a, b, c]) && Run(w, [a, b, c]) == Next(Next(Next(w, a), b), c)
  {
    hide Inv, Apply, Enabled;
    var v := Next(Next(w, a), b);
    assert [c][1..] == [] && [b, c][1..] == [c] && [a, b, c][1..] == [b, c];
    assert Legal(Next(v, c), []) && Run(Next(v, c), []) == Next(v, c);
    assert Legal(v, [c]) && Run(v, [c]) == Run(Next(v, c), []);
    assert Legal(Next(w, a), [b, c]) && Run(Next(w, a), [b, c]) == Run(v, [c]);
  }
}

/** Who is dropped, and who is not (feed/feed.go). */
module FeedDrops {
  import opened Basics
  import opened Feed
  import opened FeedRuns

  /** A live channel takes every event it has room for, 256 in all, and is closed by the
      first it has none for. */
  lemma DeliverExact(c: Channel, e: Feed.Event)
    requires !c.closed && |c.queue| <= 256
    ensures Deliver(c, e) == if |c.queue| < 256 then c.(queue := c.queue + [e]) else c.(closed := true)
  {
  }

  lemma {:induction false} PublishDrops(st: State, events: seq<Feed.Event>, id: SubId)
    requires id in st.chans && |st.chans[id].queue| <= 256
    ensures id in Publish(st, events).chans
    ensures var c := st.chans[id]; var d := Publish(st, events).chans[id];
            if c.closed then d == c
            else if |c.queue| + |events| <= 256 then !d.closed && |d.queue| == |c.queue| + |events|
            else d.closed && |d.queue| <= 256
  {
    if |events| > 0 {
      PublishDrops(st, events[..|events| - 1], id);
    }
  }

  /** A subscriber loses its channel if and only if it detaches, everybody is detached, or
      a commit leaves it more than 256 events behind. */
  lemma DroppedExact(w: World, a: Step, id: SubId)
    requires Inv(w) && Enabled(w, a) && id in w.st.chans && !w.st.chans[id].closed
    ensures id in Apply(w, a).st.chans
    ensures Apply(w, a).st.chans[id].closed <==>
              || (a.Committed? && |w.st.chans[id].queue| + |a.events| > 256)
              || a == OtherDetach(id) || a == DetachEverybody || (a == Leave && w.client.link.value.sub == id)
  {
    assert ChanOk(w.st.log, w.st.chans[id]);
    hide FeedOk, ClientOk;
    match a
    case Committed(events) => PublishDrops(w.st, events, id);
    case _ =>
  }
}

/** The per-connection hooks that fill a feed (feed/feed.go, `Install`): row changes
    are buffered until commit, and published as one block. */
module FeedHooks {
  import opened Basics
  import opened Feed

  const MAX_PENDING := 8192

  type ConnId = nat

  /** What SQLite's preupdate hook reports. */
  datatype Change = Change(opcode: int, table: string, oldRow: int, newRow: int)

  datatype Hook =
    | PreUpdate(c: ConnId, d: Change)
    | Commit(c: ConnId)
    | Rollback(c: ConnId)

  /** The changes that are reported, by SQLite's opcode, and under what name. */
  const REPORTED := map[18 := "insert", 23 := "update", 9 := "delete"]

  /** What a reported change says: its table, its kind, and the row as it is after the
      change, or as it was if the change deletes it. */
  ghost function Report(d: Change): Feed.Event
    requires d.opcode in REPORTED
  {
    Event(0, d.table, REPORTED[d.opcode], if REPORTED[d.opcode] == "delete" then d.oldRow else d.newRow, false)
  }

  /** The event for a recognized opcode: insert, update or delete. */
  function Recognize(d: Change): Option<Feed.Event> {
    if d.opcode == 18 then Some(Event(0, d.table, "insert", d.newRow, false))
    else if d.opcode == 23 then Some(Event(0, d.table, "update", d.newRow, false))
    else if d.opcode == 9 then Some(Event(0, d.table, "delete", d.oldRow, false))
    else None
  }

  const MARKER := Event(0, "", "", 0, true)

  /** A connection's buffer. */
  datatype Buffer = Buffer(pending: seq<Feed.Event>, overflow: bool)

  const EMPTY := Buffer([], false)

  function Buffered(b: Buffer, d: Change): Buffer {
    if b.overflow then b
    else match Recognize(d)
      case None => b
      case Some(e) => if |b.pending| >= MAX_PENDING then Buffer([], true) else b.(pending := b.pending + [e])
  }

  function Flushed(b: Buffer): seq<Feed.Event> {
    if b.overflow then [MARKER] else b.pending
  }

  /** The hooks of one connection, over the feed they publish to. */
  class Connection {
    const feed: DbFeed
    var pending: seq<Feed.Event>
    var overflow: bool

    constructor (feed: DbFeed)
      ensures this.feed == feed && Contents() == EMPTY
    {
      this.feed := feed;
      pending, overflow := [], false;
    }

    ghost function Contents(): Buffer
      reads this
    {
      Buffer(pending, overflow)
    }

    method OnPreUpdate(d: Change)
      modifies this
      ensures Contents() == Buffered(old(Contents()), d)
    {
      if overflow {
        return;
      }
      var op: string, row: int;
      if d.opcode == 18 {
        op, row := "insert", d.newRow;
      } else if d.opcode == 23 {
        op, row := "update", d.newRow;
      } else if d.opcode == 9 {
        op, row := "delete", d.oldRow;
      } else {
        return;
      }
      if |pending| >= MAX_PENDING {
        overflow := true;
        pending := [];
        return;
      }
      pending := pending + [Event(0, d.table, op, row, false)];
    }

    method OnCommit()
      requires feed.Valid()
      modifies this, feed, feed.ring
      ensures feed.Valid() && Contents() == EMPTY
      ensures feed.Abstract() == Publish(old(feed.Abstract()), Flushed(old(Contents())))
    {
      if overflow {
        feed.PublishAll([MARKER]);
      } else if |pending| > 0 {
        feed.PublishAll(pending);
      }
      pending, overflow := [], false;
    }

    method OnRollback()
      modifies this
      ensures Contents() == EMPTY
    {
      pending, overflow := [], false;
    }
  }

  // ---- All interleavings of all connections' hooks ----

  datatype World = World(st: State, buffers: map<ConnId, Buffer>) {
    function Of(c: ConnId): Buffer {
      if c in buffers then buffers[c] else EMPTY
    }
  }

  function Apply(w: World, h: Hook): World {
    match h
    case PreUpdate(c, d) => w.(buffers := w.buffers[c := Buffered(w.Of(c), d)])
    case Commit(c) => World(Publish(w.st, Flushed(w.Of(c))), w.buffers[c := EMPTY])
    case Rollback(c) => w.(buffers := w.buffers[c := EMPTY])
  }

  function Run(w: World, hooks: seq<Hook>): World {
    if |hooks| == 0 then w else Apply(Run(w, hooks[..|hooks| - 1]), hooks[|hooks| - 1])
  }

  /** The reference reading, from the history alone: the recognized changes of
      connection `c` since its last commit or rollback ... */
  ghost function Transaction(hooks: seq<Hook>, c: ConnId): seq<Feed.Event> {
    if |hooks| == 0 then []
    else
      var earlier := hooks[..|hooks| - 1];
      var h := hooks[|hooks| - 1];
      if h.c != c then Transaction(earlier, c)
      else match h
        case PreUpdate(_, d) =>
          Transaction(earlier, c) + (if d.opcode in REPORTED then [Report(d)] else [])
        case _ => []
  }

  /** ... and the committed transactions in commit order, each one block; a block too
      large becomes a single reset marker. */
  ghost function Committed(hooks: seq<Hook>): seq<Feed.Event> {
    if |hooks| == 0 then []
    else
      var earlier := hooks[..|hooks| - 1];
      var h := hooks[|hooks| - 1];
      Committed(earlier) + (if h.Commit? then Block(Transaction(earlier, h.c)) else [])
  }

  function Block(txn: seq<Feed.Event>): seq<Feed.Event> {
    if |txn| > 8192 then [Event(0, "", "", 0, true)] else txn
  }

  /** Events numbered on from position `from`. */
  function Stamped(events: seq<Feed.Event>, from: nat): seq<Feed.Event> {
    seq(|events|, i requires 0 <= i < |events| => events[i].(sq := from + i + 1))
  }

  lemma {:induction false} PublishStamps(st: State, events: seq<Feed.Event>)
    ensures Publish(st, events).log == st.log + Stamped(events, |st.log|)
  {
    if |events| > 0 {
      PublishStamps(st, events[..|events| - 1]);
    }
  }

  /** A connection's buffer is its open transaction, or the memory that it overflowed. */
  lemma {:induction false} BufferMatches(w: World, hooks: seq<Hook>, c: ConnId)
    requires w.buffers == map[]
    ensures var b := Run(w, hooks).Of(c); var txn := Transaction(hooks, c);
            if |txn| > MAX_PENDING then b == Buffer([], true) else b == Buffer(txn, false)
  {
    if |hooks| > 0 {
      BufferMatches(w, hooks[..|hooks| - 1], c);
    }
  }

  /** Over every interleaving of every connection's hooks, the published log is the
      committed transactions in commit order, each contiguous; rolled-back changes
      appear nowhere. */
  lemma {:induction false} LogIsCommitted(w: World, hooks: seq<Hook>)
    requires w.buffers == map[] && w.st.log == []
    ensures Run(w, hooks).st.log == Stamped(Committed(hooks), 0)
  {
    if |hooks| > 0 {
      var earlier := hooks[..|hooks| - 1];
      var h := hooks[|hooks| - 1];
      LogIsCommitted(w, earlier);
      if h.Commit? {
        BufferMatches(w, earlier, h.c);
        var before := Run(w, earlier);
        PublishStamps(before.st, Flushed(before.Of(h.c)));
      }
    }
  }
}
