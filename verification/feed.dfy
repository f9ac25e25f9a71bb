/** The change feed of one database (feed/feed.go): a circular buffer of numbered
    events and bounded subscriber channels.

    `State` is the plain reading of a feed: an ever-growing log, and what each
    subscriber's channel holds of it. The class `DbFeed` keeps only a ring of the last
    `cap` events and is proved to behave as the log. */
module Feed {
  import opened Basics

  datatype Event = Event(sq: nat, table: string, op: string, rowid: int, reset: bool)

  const SUBSCRIBER_BUF := 256

  type SubId = nat

  /** A subscriber's channel, attached when the feed stood at `start`. `taken` is what
      its consumer has received, `queue` what is still buffered; a closed channel can
      be drained but not sent to. */
  datatype Channel = Channel(start: nat, taken: seq<Event>, queue: seq<Event>, closed: bool)

  datatype State = State(log: seq<Event>, chans: map<SubId, Channel>) {
    function Live(): set<SubId> {
      set id | id in chans && !chans[id].closed
    }
  }

  /** Closing a channel twice would panic, hence the precondition. */
  function Close(c: Channel): Channel
    requires !c.closed
  {
    c.(closed := true)
  }

  /** The non-blocking send: a subscriber whose buffer is full is dropped instead. */
  function Deliver(c: Channel, e: Event): Channel {
    if c.closed then c
    else if |c.queue| < SUBSCRIBER_BUF then c.(queue := c.queue + [e])
    else Close(c)
  }

  function PublishOne(st: State, e: Event): State {
    var e' := e.(sq := |st.log| + 1);
    State(st.log + [e'], map id | id in st.chans :: Deliver(st.chans[id], e'))
  }

  function Publish(st: State, events: seq<Event>): State {
    if |events| == 0 then st
    else PublishOne(Publish(st, events[..|events| - 1]), events[|events| - 1])
  }

  /** How many of the latest events a ring of `cap` slots still holds. */
  function Retained(log: seq<Event>, cap: nat): nat {
    if |log| < cap then |log| else cap
  }

  /** The subscriber's world is stale: its position is not one this feed has, or its
      next event has left the ring. */
  predicate Stale(log: seq<Event>, cap: nat, since: nat) {
    since > |log| || 0 < since < |log| - Retained(log, cap)
  }

  /** The events after `since`, when the subscriber named a position and is not stale. */
  function Replay(log: seq<Event>, cap: nat, since: nat): seq<Event> {
    if since == 0 || Stale(log, cap, since) then [] else log[since..]
  }

  function Subscribe(st: State, id: SubId): State {
    st.(chans := st.chans[id := Channel(|st.log|, [], [], false)])
  }

  function Unsubscribe(st: State, id: SubId): State {
    if id in st.chans && !st.chans[id].closed then st.(chans := st.chans[id := Close(st.chans[id])]) else st
  }

  function CloseAll(st: State): State {
    st.(chans := map id | id in st.chans :: if st.chans[id].closed then st.chans[id] else Close(st.chans[id]))
  }

  /** The consumer receives the next buffered event. */
  function Receive(c: Channel): Channel
    requires |c.queue| > 0
  {
    c.(taken := c.taken + [c.queue[0]], queue := c.queue[1..])
  }

  // ---- The feed object ----

  /** Where the event at log position `k` (sequence number k + 1) lives. */
  function Slot(k: nat, cap: nat): (r: nat)
    requires cap > 0
    ensures r < cap
  {
    k % cap
  }

  lemma Multiples(d: int, cap: nat)
    ensures d >= 1 ==> d * cap >= cap
    ensures d <= 0 ==> d * cap <= 0
  {
  }

  /** Any `cap` consecutive positions have different slots. */
  lemma SlotsApart(a: nat, b: nat, cap: nat)
    requires a < b < a + cap
    ensures Slot(a, cap) != Slot(b, cap)
  {
    var q := a / cap;
    var r := b / cap;
    Multiples(r - q, cap);
    assert (r - q) * cap == r * cap - q * cap;
    assert a == q * cap + a % cap;
    assert b == r * cap + b % cap;
  }

  class DbFeed {
    const cap: nat
    const ring: array<Event>
    var head: nat                      // the sequence number of the last event
    var chans: map<SubId, Channel>
    var subs: set<SubId>
    ghost var log: seq<Event>

    ghost function Abstract(): State
      reads this
    {
      State(log, chans)
    }

    /** The ring refines the log: slot k mod cap holds the event at position k, for
        every event still retained. */
    ghost predicate Valid()
      reads this, ring
    {
      && cap > 0 && ring.Length == cap && head == |log|
      && (forall k :: |log| - Retained(log, cap) <= k < |log| ==> ring[Slot(k, cap)] == log[k])
      && subs == Abstract().Live()
    }

    constructor (buffer: int)
      ensures Valid() && fresh(ring) && log == [] && chans == map[]
      ensures cap == (if buffer < 1 then 1 else buffer)
    {
      cap := if buffer < 1 then 1 else buffer;
      ring := new Event[if buffer < 1 then 1 else buffer](i => Event(0, "", "", 0, false));
      head, chans, subs, log := 0, map[], {}, [];
    }

    method Send(e: Event)
      requires Valid()
      modifies this`chans, this`subs
      ensures Valid()
      ensures chans == (map id | id in old(chans) :: Deliver(old(chans)[id], e))
    {
      var todo := subs;
      while todo != {}
        invariant todo <= subs && subs == Abstract().Live()
        invariant chans.Keys == old(chans).Keys
        invariant forall id <- chans :: chans[id] == if id in todo then old(chans)[id] else Deliver(old(chans)[id], e)
      {
        var id :| id in todo;
        todo := todo - {id};
        if |chans[id].queue| < SUBSCRIBER_BUF {
          chans := chans[id := chans[id].(queue := chans[id].queue + [e])];
        } else {
          subs := subs - {id};
          chans := chans[id := Close(chans[id])];
        }
      }
    }

    /** Number one event, overwrite the oldest slot with it and send it. */
    method Append(event: Event)
      requires Valid()
      modifies this`head, this`chans, this`subs, this`log, ring
      ensures Valid() && Abstract() == PublishOne(old(Abstract()), event)
    {
      head := head + 1;
      var e := event.(sq := head);
      forall k | head - cap <= k < head - 1 && k >= 0 ensures Slot(k, cap) != Slot(head - 1, cap) {
        SlotsApart(k, head - 1, cap);
      }
      hide Slot;
      ring[Slot(head - 1, cap)] := e;
      log := log + [e];
      Send(e);
    }

    method PublishAll(events: seq<Event>)
      requires Valid()
      modifies this`head, this`chans, this`subs, this`log, ring
      ensures Valid() && Abstract() == Publish(old(Abstract()), events)
    {
      for i := 0 to |events|
        invariant Valid() && Abstract() == Publish(old(Abstract()), events[..i])
      {
        Append(events[i]);
        hide Valid, PublishOne;
        assert events[..i + 1][..i] == events[..i];
      }
      assert events[..|events|] == events;
    }

    /** The replay loop, over events all still in the ring. */
    method ReadFrom(since: nat) returns (replay: seq<Event>)
      requires Valid() && |log| - Retained(log, cap) <= since <= |log|
      ensures replay == log[since..]
    {
      hide Slot;
      replay := [];
      var sq := since + 1;
      while sq <= head
        invariant since < sq <= head + 1 && replay == log[since..sq - 1]
      {
        replay := replay + [ring[Slot(sq - 1, cap)]];
        sq := sq + 1;
      }
    }

    /** Attach a subscriber: the replay is exactly the log after `since` whenever that
        is still retained, and reset is reported exactly when the subscriber is stale. */
    method Attach(since: nat, maxSubs: int, id: SubId)
        returns (replay: seq<Event>, reset: bool, full: bool, at: nat)
      requires Valid() && id !in chans
      modifies this`chans, this`subs
      ensures Valid() && at == |log|
      ensures full == (maxSubs > 0 && |old(Abstract()).Live()| >= maxSubs)
      ensures full ==> Abstract() == old(Abstract()) && !reset && replay == []
      ensures !full ==> Abstract() == Subscribe(old(Abstract()), id)
      ensures !full ==> reset == Stale(log, cap, since) && replay == Replay(log, cap, since)
      ensures !full ==> (reset <==> since > |log| || (since > 0 && since + cap < |log|))
      ensures !full ==> replay == if 0 < since <= |log| <= since + cap then log[since..] else []
      ensures !full ==> id in chans && chans[id] == Channel(|log|, [], [], false)
    {
      hide Slot;
      replay, reset, full, at := [], false, false, head;
      if maxSubs > 0 && |subs| >= maxSubs {
        full := true;
        return;
      }
      if since > head {
        reset := true;
      } else if since > 0 && since < head {
        var retained := if head < cap then head else cap;
        var oldest := head - retained + 1;
        if since + 1 < oldest {
          reset := true;
        } else {
          replay := ReadFrom(since);
        }
      }
      chans := chans[id := Channel(head, [], [], false)];
      subs := subs + {id};
    }

    method Detach(id: SubId)
      requires Valid()
      modifies this`chans, this`subs
      ensures Valid() && Abstract() == Unsubscribe(old(Abstract()), id)
    {
      if id in subs {
        subs := subs - {id};
        chans := chans[id := Close(chans[id])];
      }
    }

    method DetachAll()
      requires Valid()
      modifies this`chans, this`subs
      ensures Valid() && Abstract() == CloseAll(old(Abstract())) && subs == {}
    {
      while subs != {}
        invariant Valid() && chans.Keys == old(chans).Keys
        invariant forall id <- chans ::
                    chans[id] == if old(chans)[id].closed || id in subs then old(chans)[id] else Close(old(chans)[id])
        decreases subs
      {
        var id :| id in subs;
        subs := subs - {id};
        chans := chans[id := Close(chans[id])];
      }
    }
  }
}
