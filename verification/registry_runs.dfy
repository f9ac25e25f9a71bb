/** Every interleaving of the registry's critical sections (registry/registry.go).

    A `World` is the registry's fields plus what the callers hold: threads inside
    `Get`, unreleased grants, reservations, and handles detached but not yet closed.
    The blocking open and the blocking close run between steps. */
module RegistryRuns {
  import opened Basics
  import opened Registry

  type ThreadId = nat
  type GrantId = nat

  datatype Thread =
    | AtTop(name: DbName)                    // about to take the lock in Get's loop
    | Opening(entry: EntryId)                // inside backend.Open, lock released
    | Waiting(name: DbName, entry: EntryId)  // blocked on the entry's ready latch

  datatype World = World(
    core: Core,
    threads: map<ThreadId, Thread>,
    grants: map<GrantId, EntryId>,         // release functions not yet called
    minted: set<GrantId>,                  // release functions ever returned
    reservations: map<EntryId, DbName>,    // reservations not yet released
    home: map<HandleId, EntryId>,          // every handle ever opened, and its entry
    pending: multiset<HandleId>,           // detached; one element per Close call still to come
    closed: multiset<HandleId>)            // one element per Close call made

  datatype Event =
    | CallGet(t: ThreadId, name: DbName)
    | EnterGet(t: ThreadId, id: EntryId)
    | OpenDone(t: ThreadId, got: Option<HandleId>, g: GrantId, now: Instant)
    | WakeUp(t: ThreadId, g: GrantId, now: Instant)
    | Cancel(t: ThreadId)
    | Release(g: GrantId, now: Instant)
    | ReserveDb(name: DbName, id: EntryId)
    | UnreserveDb(id: EntryId)
    | AddDb(name: DbName)
    | RemoveDb(name: DbName)
    | ReapHandles(ttl: int, now: Instant)
    | CloseDone(h: HandleId)

  ghost function Start(backends: set<DbName>): (w: World)
    ensures Inv(w)
  {
    World(Core(map[], map[], backends), map[], map[], {}, map[], map[], multiset{}, multiset{})
  }

  /** What each step needs of its caller and of the allocator. */
  ghost predicate Enabled(w: World, ev: Event) {
    match ev
    case CallGet(t, _) => t !in w.threads
    case EnterGet(t, id) => t in w.threads && w.threads[t].AtTop? && id !in w.core.pool
    case OpenDone(t, got, g, _) =>
      t in w.threads && w.threads[t].Opening? && g !in w.minted && (got.Some? ==> got.value !in w.home)
    case WakeUp(t, g, _) =>
      && t in w.threads && w.threads[t].Waiting? && g !in w.minted
      && w.threads[t].entry in w.core.pool && !w.core.pool[w.threads[t].entry].opening
    case Cancel(t) => t in w.threads && w.threads[t].Waiting?
    case Release(g, _) => g in w.minted
    case ReserveDb(_, id) => id !in w.core.pool
    case UnreserveDb(id) => id in w.reservations
    case CloseDone(h) => w.pending[h] > 0
    case _ => true
  }

  function Grant(w: World, g: GrantId, e: EntryId): World {
    w.(grants := w.grants[g := e], minted := w.minted + {g})
  }

  /** Detach idle entries by name and queue one Close per handle. */
  ghost function DetachAll(w: World, names: set<DbName>): World
    requires w.core.Linked() && names <= w.core.entries.Keys
    requires forall n <- names :: w.core.At(n).db.Some?
  {
    w.(core := w.core.(entries := w.core.entries - names),
       pending := w.pending + multiset(HandlesOf(w.core, names)))
  }

  ghost function HandlesOf(c: Core, names: set<DbName>): set<HandleId>
    requires c.Linked() && names <= c.entries.Keys
    requires forall n <- names :: c.At(n).db.Some?
  {
    set n | n in names :: c.At(n).db.value
  }

  function Defer(pending: multiset<HandleId>, db: Option<HandleId>): multiset<HandleId> {
    if db.Some? then pending + multiset{db.value} else pending
  }

  function AfterEnter(w: World, t: ThreadId, id: EntryId): World
    requires t in w.threads && w.threads[t].AtTop?
  {
    var name := w.threads[t].name;
    var (c, r) := Enter(w.core, name, id);
    var w1 := w.(core := c);
    match r
    case UnknownDb => w1.(threads := w.threads - {t})
    case MustOpen => w1.(threads := w.threads[t := Opening(id)])
    case MustWait(e) => w1.(threads := w.threads[t := Waiting(name, e)])
  }

  function AfterOpen(w: World, t: ThreadId, got: Option<HandleId>, g: GrantId, now: Instant): World
    requires t in w.threads && w.threads[t].Opening? && w.threads[t].entry in w.core.pool
  {
    var e := w.threads[t].entry;
    var w1 := w.(core := Publish(w.core, e, got, now), threads := w.threads - {t});
    if got.None? then w1 else Grant(w1, g, e).(home := w.home[got.value := e])
  }

  function AfterWake(w: World, t: ThreadId, g: GrantId, now: Instant): World
    requires t in w.threads && w.threads[t].Waiting? && w.threads[t].entry in w.core.pool
  {
    var Waiting(name, e) := w.threads[t];
    var (c, r) := Awake(w.core, name, e, now);
    var w1 := w.(core := c);
    match r
    case Retry => w1.(threads := w.threads[t := AtTop(name)])
    case Granted(_) => Grant(w1, g, e).(threads := w.threads - {t})
    case _ => w1.(threads := w.threads - {t})
  }

  function AfterRelease(w: World, g: GrantId, now: Instant): World
    requires g in w.grants ==> w.grants[g] in w.core.pool
  {
    if g !in w.grants then w  // each release function fires once
    else w.(core := Unref(w.core, w.grants[g], now), grants := w.grants - {g})
  }

  function AfterReserve(w: World, name: DbName, id: EntryId): World
    requires w.core.Linked()
  {
    var (c, r) := Reserve(w.core, name, id);
    if r.Claimed?
    then w.(pending := Defer(w.pending, r.db), core := c, reservations := w.reservations[id := name]) else w
  }

  function AfterRemove(w: World, name: DbName): World
    requires w.core.Linked()
  {
    var (c, r) := Remove(w.core, name);
    if r.Claimed? then w.(pending := Defer(w.pending, r.db), core := c) else w
  }

  ghost function Apply(w: World, ev: Event): World
    requires Inv(w) && Enabled(w, ev)
  {
    match ev
    case CallGet(t, name) => w.(threads := w.threads[t := AtTop(name)])
    case EnterGet(t, id) => AfterEnter(w, t, id)
    case OpenDone(t, got, g, now) => AfterOpen(w, t, got, g, now)
    case WakeUp(t, g, now) => AfterWake(w, t, g, now)
    case Cancel(t) => w.(threads := w.threads - {t})
    case Release(g, now) => AfterRelease(w, g, now)
    case ReserveDb(name, id) => AfterReserve(w, name, id)
    case UnreserveDb(id) =>
      w.(core := Unreserve(w.core, w.reservations[id]), reservations := w.reservations - {id})
    case AddDb(name) => w.(core := Add(w.core, name).0)
    case RemoveDb(name) => AfterRemove(w, name)
    case ReapHandles(ttl, now) =>
      DetachAll(w, IdleNames(w.core, ttl, now))
    case CloseDone(h) =>
      w.(pending := w.pending - multiset{h}, closed := w.closed + multiset{h})
  }

  // ---- The invariant ----

  ghost predicate Attached(c: Core, e: EntryId)
    requires e in c.pool
  {
    c.pool[e].name in c.entries && c.entries[c.pool[e].name] == e
  }

  /** Reference counts: an entry's `refs` is its unreleased grants plus the opener's
      pre-count; an entry outside the map has none. */
  ghost predicate EntryOk(c: Core, grants: map<GrantId, EntryId>, e: EntryId)
    requires e in c.pool
  {
    var x := c.pool[e];
    && x.refs == Count(grants, e) + (if x.opening then 1 else 0)
    && (x.opening ==> x.refs == 1 && x.db.None? && !x.reserved)
    && (x.reserved ==> x.db.None? && x.refs == 0)
    && (if Attached(c, e)
        then !x.failed && (!x.opening && !x.reserved ==> x.db.Some?)
        else x.refs == 0 && !x.opening)
  }

  ghost predicate EntriesOk(c: Core, grants: map<GrantId, EntryId>) {
    && c.Linked()
    && (forall n <- c.entries :: c.At(n).name == n)
    && (forall e <- c.pool :: EntryOk(c, grants, e))
  }

  ghost predicate ThreadsOk(pool: map<EntryId, Entry>, threads: map<ThreadId, Thread>) {
    && (forall t <- threads :: threads[t].Opening? ==>
          threads[t].entry in pool && pool[threads[t].entry].opening)
    && (forall t <- threads, u <- threads ::
          threads[t].Opening? && threads[u].Opening? && threads[t].entry == threads[u].entry ==> t == u)
    && (forall t <- threads :: threads[t].Waiting? ==>
          threads[t].entry in pool && pool[threads[t].entry].name == threads[t].name)
  }

  /** Somebody will release every latch: an entry being opened has a live opener. */
  ghost predicate OpenersOk(pool: map<EntryId, Entry>, threads: map<ThreadId, Thread>) {
    forall e <- pool :: pool[e].opening ==> exists t <- threads :: threads[t] == Opening(e)
  }

  ghost predicate GrantsOk(pool: map<EntryId, Entry>, grants: map<GrantId, EntryId>, minted: set<GrantId>) {
    forall g <- grants :: g in minted && grants[g] in pool
  }

  /** A reservation is a placeholder in the map, and every placeholder there has one. */
  ghost predicate ReservationsOk(c: Core, reservations: map<EntryId, DbName>) {
    && (forall e <- reservations ::
          e in c.pool && c.pool[e].reserved && c.pool[e].name == reservations[e] && Attached(c, e))
    && (forall e <- c.pool :: c.pool[e].reserved && Attached(c, e) ==> e in reservations)
  }

  /** A handle belongs to one entry; once that entry leaves the map the handle has
      exactly one closer, pending or done, and before that none. */
  ghost predicate HandlesOk(c: Core, home: map<HandleId, EntryId>,
                            pending: multiset<HandleId>, closed: multiset<HandleId>)
  {
    && HomesOk(c.pool, home)
    && (forall h <- home ::
          pending[h] + closed[h] == (if Attached(c, home[h]) then 0 else 1))
    && (forall h :: h in pending || h in closed ==> h in home)
  }

  ghost predicate HomesOk(pool: map<EntryId, Entry>, home: map<HandleId, EntryId>) {
    && (forall e <- pool :: pool[e].db.Some? ==>
          pool[e].db.value in home && home[pool[e].db.value] == e)
    && (forall h <- home :: home[h] in pool && pool[home[h]].db == Some(h))
  }

  ghost predicate Inv(w: World) {
    && w.core.Linked()
    && EntriesOk(w.core, w.grants)
    && ThreadsOk(w.core.pool, w.threads)
    && OpenersOk(w.core.pool, w.threads)
    && GrantsOk(w.core.pool, w.grants, w.minted)
    && ReservationsOk(w.core, w.reservations)
    && HandlesOk(w.core, w.home, w.pending, w.closed)
  }

  // ---- Each way the fields change, one invariant at a time ----

  /** A new entry enters the map under a free name. */
  lemma Install(c: Core, grants: map<GrantId, EntryId>, minted: set<GrantId>, id: EntryId, x: Entry)
    requires EntriesOk(c, grants) && GrantsOk(c.pool, grants, minted)
    requires id !in c.pool && x.name !in c.entries
    requires x == Opener(x.name) || x == Placeholder(x.name)
    ensures EntriesOk(c.(entries := c.entries[x.name := id], pool := c.pool[id := x]), grants)
  {
  }

  lemma InstallHandles(c: Core, home: map<HandleId, EntryId>, pending: multiset<HandleId>,
                       closed: multiset<HandleId>, id: EntryId, x: Entry)
    requires HandlesOk(c, home, pending, closed)
    requires id !in c.pool && x.name !in c.entries && x.db.None?
    ensures HandlesOk(c.(entries := c.entries[x.name := id], pool := c.pool[id := x]), home, pending, closed)
  {
  }

  lemma InstallGrants(pool: map<EntryId, Entry>, grants: map<GrantId, EntryId>, minted: set<GrantId>, id: EntryId,
                      x: Entry)
    requires GrantsOk(pool, grants, minted)
    ensures GrantsOk(pool[id := x], grants, minted)
  {
  }

  lemma EntryNamed(c: Core, grants: map<GrantId, EntryId>, name: DbName)
    requires EntriesOk(c, grants) && name in c.entries
    ensures c.At(name).name == name
  {
  }

  lemma InstallReservations(c: Core, reservations: map<EntryId, DbName>, id: EntryId, x: Entry)
    requires ReservationsOk(c, reservations) && id !in c.pool && x.name !in c.entries
    ensures x.reserved ==>
              ReservationsOk(c.(entries := c.entries[x.name := id], pool := c.pool[id := x]),
                             reservations[id := x.name])
    ensures !x.reserved ==>
              ReservationsOk(c.(entries := c.entries[x.name := id], pool := c.pool[id := x]), reservations)
  {
  }

  lemma InstallThreads(pool: map<EntryId, Entry>, threads: map<ThreadId, Thread>, id: EntryId, x: Entry)
    requires ThreadsOk(pool, threads) && id !in pool
    ensures ThreadsOk(pool[id := x], threads)
    ensures forall t <- threads :: x.opening ==> ThreadsOk(pool[id := x], threads[t := Opening(id)])
  {
  }

  lemma InstallOpener(pool: map<EntryId, Entry>, threads: map<ThreadId, Thread>, id: EntryId, x: Entry, t: ThreadId)
    requires OpenersOk(pool, threads) && id !in pool && x.opening && t in threads && !threads[t].Opening?
    ensures OpenersOk(pool[id := x], threads[t := Opening(id)])
  {
    var after := threads[t := Opening(id)];
    assert t in after && after[t] == Opening(id);
    OpenersKeep(pool, threads, id, x, after);
  }

  /** A thread that is not opening may do anything but open. */
  lemma OpenersOnly(pool: map<EntryId, Entry>, threads: map<ThreadId, Thread>, threads': map<ThreadId, Thread>)
    requires OpenersOk(pool, threads)
    requires forall t <- threads :: threads[t].Opening? ==> t in threads' && threads'[t] == threads[t]
    ensures OpenersOk(pool, threads')
  {
  }

  /** Openers survive when no other thread stops opening and no entry starts. */
  lemma OpenersKeep(pool: map<EntryId, Entry>, threads: map<ThreadId, Thread>,
                    e: EntryId, x: Entry, threads': map<ThreadId, Thread>)
    requires OpenersOk(pool, threads)
    requires x.opening ==> (exists t <- threads' :: threads'[t] == Opening(e)) || (e in pool && pool[e].opening)
    requires forall t <- threads :: threads[t].Opening? && (x.opening || threads[t].entry != e) ==>
               t in threads' && threads'[t] == threads[t]
    ensures OpenersOk(pool[e := x], threads')
  {
  }

  /** Idle entries leave the map together, and their handles go to a closer. */
  lemma Detach(w: World, names: set<DbName>)
    requires Inv(w) && names <= w.core.entries.Keys
    requires forall n <- names :: !InUse(w.core.At(n))
    ensures forall n <- names :: w.core.At(n).db.Some?
    ensures Inv(DetachAll(w, names))
  {
    forall n | n in names ensures w.core.At(n).db.Some? {
      assert EntryOk(w.core, w.grants, w.core.entries[n]);
    }
    DetachEntries(w.core, w.grants, names);
    DetachHandles(w.core, w.home, w.pending, w.closed, names);
  }

  lemma DetachEntries(c: Core, grants: map<GrantId, EntryId>, names: set<DbName>)
    requires EntriesOk(c, grants) && names <= c.entries.Keys
    requires forall n <- names :: !InUse(c.At(n))
    ensures EntriesOk(c.(entries := c.entries - names), grants)
  {
  }

  lemma DetachHandles(c: Core, home: map<HandleId, EntryId>, pending: multiset<HandleId>,
                      closed: multiset<HandleId>, names: set<DbName>)
    requires HandlesOk(c, home, pending, closed) && c.Linked() && names <= c.entries.Keys
    requires forall n <- c.entries :: c.At(n).name == n
    requires forall n <- names :: c.At(n).db.Some?
    ensures HandlesOk(c.(entries := c.entries - names), home, pending + multiset(HandlesOf(c, names)), closed)
  {
  }

  lemma PublishEntries(c: Core, grants: map<GrantId, EntryId>, e: EntryId, h: HandleId, g: GrantId, now: Instant)
    requires EntriesOk(c, grants) && e in c.pool && c.pool[e].opening && g !in grants
    ensures EntriesOk(Publish(c, e, Some(h), now), grants[g := e])
  {
    var d := Publish(c, e, Some(h), now);
    assert EntryOk(c, grants, e);
    forall x | x in d.pool ensures EntryOk(d, grants[g := e], x) {
      CountInsert(grants, g, e, x);
      assert EntryOk(c, grants, x);
    }
  }

  lemma PublishHandles(c: Core, home: map<HandleId, EntryId>, pending: multiset<HandleId>,
                       closed: multiset<HandleId>, e: EntryId, h: HandleId, x: Entry)
    requires HandlesOk(c, home, pending, closed)
    requires e in c.pool && c.pool[e].db.None? && Attached(c, e) && h !in home
    requires x.name == c.pool[e].name && x.db == Some(h)
    ensures HandlesOk(c.(pool := c.pool[e := x]), home[h := e], pending, closed)
  {
  }

  lemma FailEntries(c: Core, grants: map<GrantId, EntryId>, e: EntryId, now: Instant)
    requires EntriesOk(c, grants) && e in c.pool && c.pool[e].opening
    ensures EntriesOk(Publish(c, e, None, now), grants)
    ensures Attached(c, e)
  {
  }

  lemma FailHandles(c: Core, home: map<HandleId, EntryId>, pending: multiset<HandleId>,
                    closed: multiset<HandleId>, e: EntryId, now: Instant)
    requires HandlesOk(c, home, pending, closed)
    requires e in c.pool && c.pool[e].db.None? && Attached(c, e)
    ensures HandlesOk(Publish(c, e, None, now), home, pending, closed)
  {
  }

  lemma PublishReservations(c: Core, reservations: map<EntryId, DbName>, e: EntryId, got: Option<HandleId>,
                            now: Instant)
    requires ReservationsOk(c, reservations) && e in c.pool && !c.pool[e].reserved && Attached(c, e)
    ensures ReservationsOk(Publish(c, e, got, now), reservations)
  {
  }

  /** The opener leaves once its entry is no longer opening. */
  lemma OpenerLeaves(pool: map<EntryId, Entry>, threads: map<ThreadId, Thread>, t: ThreadId, x: Entry)
    requires ThreadsOk(pool, threads) && t in threads && threads[t].Opening?
    requires x.name == pool[threads[t].entry].name
    ensures ThreadsOk(pool[threads[t].entry := x], threads - {t})
  {
  }

  lemma OpenKeeps(w: World, t: ThreadId, got: Option<HandleId>, g: GrantId, now: Instant)
    requires Inv(w) && Enabled(w, OpenDone(t, got, g, now))
    ensures Inv(AfterOpen(w, t, got, g, now))
  {
    hide OpenersOk, ReservationsOk, HandlesOk;
    var e := w.threads[t].entry;
    assert EntryOk(w.core, w.grants, e);
    var d := Publish(w.core, e, got, now);
    OpenerLeaves(w.core.pool, w.threads, t, d.pool[e]);
    OpenersKeep(w.core.pool, w.threads, e, d.pool[e], w.threads - {t});
    FailEntries(w.core, w.grants, e, now);
    PublishReservations(w.core, w.reservations, e, got, now);
    match got
    case Some(h) =>
      PublishEntries(w.core, w.grants, e, h, g, now);
      PublishHandles(w.core, w.home, w.pending, w.closed, e, h, d.pool[e]);
    case None =>
      FailHandles(w.core, w.home, w.pending, w.closed, e, now);
  }

  /** Counting a reference up or down disturbs no other part of the invariant. */
  lemma Touch(w: World, e: EntryId, x: Entry)
    requires Inv(w) && e in w.core.pool
    requires x == w.core.pool[e].(refs := x.refs, last := x.last)
    ensures ThreadsOk(w.core.pool[e := x], w.threads)
    ensures ReservationsOk(w.core.(pool := w.core.pool[e := x]), w.reservations)
    ensures HandlesOk(w.core.(pool := w.core.pool[e := x]), w.home, w.pending, w.closed)
  {
    hide EntriesOk, ThreadsOk, OpenersOk, GrantsOk, ReservationsOk, HandlesOk;
    TouchThreads(w.core.pool, w.threads, e, x);
    TouchReservations(w.core, w.reservations, e, x);
    TouchHandles(w.core, w.home, w.pending, w.closed, e, x);
  }

  lemma TouchThreads(pool: map<EntryId, Entry>, threads: map<ThreadId, Thread>, e: EntryId, x: Entry)
    requires ThreadsOk(pool, threads) && e in pool && x == pool[e].(refs := x.refs, last := x.last)
    ensures ThreadsOk(pool[e := x], threads)
  {
  }

  lemma TouchReservations(c: Core, reservations: map<EntryId, DbName>, e: EntryId, x: Entry)
    requires ReservationsOk(c, reservations) && e in c.pool && x == c.pool[e].(refs := x.refs, last := x.last)
    ensures ReservationsOk(c.(pool := c.pool[e := x]), reservations)
  {
  }

  lemma TouchHandles(c: Core, home: map<HandleId, EntryId>, pending: multiset<HandleId>,
                     closed: multiset<HandleId>, e: EntryId, x: Entry)
    requires HandlesOk(c, home, pending, closed) && e in c.pool
    requires x == c.pool[e].(refs := x.refs, last := x.last)
    ensures HandlesOk(c.(pool := c.pool[e := x]), home, pending, closed)
  {
  }

  lemma CountUp(c: Core, grants: map<GrantId, EntryId>, e: EntryId, g: GrantId, now: Instant)
    requires EntriesOk(c, grants) && e in c.pool && g !in grants
    requires Attached(c, e) && !c.pool[e].reserved && !c.pool[e].opening
    ensures EntriesOk(c.(pool := c.pool[e := c.pool[e].(refs := c.pool[e].refs + 1, last := now)]), grants[g := e])
  {
    var d := c.(pool := c.pool[e := c.pool[e].(refs := c.pool[e].refs + 1, last := now)]);
    forall x | x in d.pool ensures EntryOk(d, grants[g := e], x) {
      CountInsert(grants, g, e, x);
      assert EntryOk(c, grants, x);
    }
  }

  lemma CountDown(c: Core, grants: map<GrantId, EntryId>, g: GrantId, now: Instant)
    requires EntriesOk(c, grants) && g in grants && grants[g] in c.pool
    ensures EntriesOk(Unref(c, grants[g], now), grants - {g})
  {
    var d := Unref(c, grants[g], now);
    CountPositive(grants, g);
    forall x | x in d.pool ensures EntryOk(d, grants - {g}, x) {
      CountRemove(grants, g, x);
      assert EntryOk(c, grants, x);
    }
  }

  /** Which backends are registered is no part of the invariant. */
  lemma Rebacked(w: World, backends: set<DbName>)
    requires Inv(w)
    ensures Inv(w.(core := w.core.(backends := backends)))
  {
    var d := w.core.(backends := backends);
    forall e | e in d.pool ensures EntryOk(d, w.grants, e) && Attached(d, e) == Attached(w.core, e) {
      assert EntryOk(w.core, w.grants, e);
    }
  }

  lemma EnterKeeps(w: World, t: ThreadId, id: EntryId)
    requires Inv(w) && Enabled(w, EnterGet(t, id))
    ensures Inv(AfterEnter(w, t, id))
  {
    hide EntriesOk, OpenersOk, GrantsOk, ReservationsOk, HandlesOk;
    var name := w.threads[t].name;
    OpenersOnly(w.core.pool, w.threads, w.threads - {t});
    if name in w.core.entries {
      OpenersOnly(w.core.pool, w.threads, w.threads[t := Waiting(name, w.core.entries[name])]);
    }
    if name in w.core.entries {
      EntryNamed(w.core, w.grants, name);
    } else if name in w.core.backends {
      Install(w.core, w.grants, w.minted, id, Opener(name));
      InstallGrants(w.core.pool, w.grants, w.minted, id, Opener(name));
      InstallHandles(w.core, w.home, w.pending, w.closed, id, Opener(name));
      InstallReservations(w.core, w.reservations, id, Opener(name));
      InstallThreads(w.core.pool, w.threads, id, Opener(name));
      InstallOpener(w.core.pool, w.threads, id, Opener(name), t);
    }
  }

  lemma WaiterMoves(pool: map<EntryId, Entry>, threads: map<ThreadId, Thread>, t: ThreadId, name: DbName)
    requires ThreadsOk(pool, threads)
    ensures ThreadsOk(pool, threads - {t}) && ThreadsOk(pool, threads[t := AtTop(name)])
  {
  }

  lemma WaitsEntry(pool: map<EntryId, Entry>, threads: map<ThreadId, Thread>, t: ThreadId)
    requires ThreadsOk(pool, threads) && t in threads && threads[t].Waiting?
    ensures threads[t].entry in pool && pool[threads[t].entry].name == threads[t].name
  {
  }

  lemma WakeKeeps(w: World, t: ThreadId, g: GrantId, now: Instant)
    requires Inv(w) && Enabled(w, WakeUp(t, g, now))
    ensures Inv(AfterWake(w, t, g, now))
  {
    hide EntriesOk, ThreadsOk, OpenersOk, ReservationsOk, HandlesOk;
    WaitsEntry(w.core.pool, w.threads, t);
    WaiterMoves(w.core.pool, w.threads, t, w.threads[t].name);
    var Waiting(name, e) := w.threads[t];
    var (c, r) := Awake(w.core, name, e, now);
    OpenersOnly(w.core.pool, w.threads, w.threads - {t});
    OpenersOnly(w.core.pool, w.threads, w.threads[t := AtTop(name)]);
    if r.Granted? {
      OpenersKeep(w.core.pool, w.threads - {t}, e, c.pool[e], w.threads - {t});
      Touch(w.(threads := w.threads - {t}), e, c.pool[e]);
      CountUp(w.core, w.grants, e, g, now);
    }
  }

  lemma ReleaseKeeps(w: World, g: GrantId, now: Instant)
    requires Inv(w)
    ensures Inv(AfterRelease(w, g, now))
  {
    hide EntriesOk, ThreadsOk, OpenersOk, ReservationsOk, HandlesOk;
    if g in w.grants {
      var e := w.grants[g];
      Touch(w, e, Unref(w.core, e, now).pool[e]);
      OpenersKeep(w.core.pool, w.threads, e, Unref(w.core, e, now).pool[e], w.threads);
      CountDown(w.core, w.grants, g, now);
    }
  }

  /** Both `Reserve` and `Remove` detach at most the one idle entry of their name. */
  lemma DetachOne(w: World, name: DbName)
    requires Inv(w)
    requires DetachIdle(w.core, name).1.Detached?
    ensures var (c, r) := DetachIdle(w.core, name);
            Inv(w.(core := c, pending := Defer(w.pending, r.db))) && name !in c.entries
  {
    hide EntriesOk, ThreadsOk, OpenersOk, GrantsOk, ReservationsOk, HandlesOk;
    if name in w.core.entries {
      Detach(w, {name});
      var h := w.core.At(name).db.value;
      assert HandlesOf(w.core, {name}) == {h};
      assert multiset({h}) == multiset{h};
    }
  }

  lemma ReserveKeeps(w: World, name: DbName, id: EntryId)
    requires Inv(w) && Enabled(w, ReserveDb(name, id))
    ensures Inv(AfterReserve(w, name, id))
  {
    hide EntriesOk, ThreadsOk, OpenersOk, GrantsOk, ReservationsOk, HandlesOk;
    if Reserve(w.core, name, id).1.Claimed? {
      DetachOne(w, name);
      var (c, r) := DetachIdle(w.core, name);
      Install(c, w.grants, w.minted, id, Placeholder(name));
      InstallGrants(c.pool, w.grants, w.minted, id, Placeholder(name));
      InstallHandles(c, w.home, Defer(w.pending, r.db), w.closed, id, Placeholder(name));
      InstallReservations(c, w.reservations, id, Placeholder(name));
      InstallThreads(c.pool, w.threads, id, Placeholder(name));
      OpenersKeep(c.pool, w.threads, id, Placeholder(name), w.threads);
    }
  }

  lemma UnreserveEntries(c: Core, grants: map<GrantId, EntryId>, id: EntryId)
    requires EntriesOk(c, grants) && id in c.pool && c.pool[id].reserved && Attached(c, id)
    ensures EntriesOk(Unreserve(c, c.pool[id].name), grants)
  {
  }

  /** Ending a reservation detaches its placeholder and nothing else. */
  lemma UnreserveDetaches(c: Core, reservations: map<EntryId, DbName>, id: EntryId, e: EntryId)
    requires ReservationsOk(c, reservations) && id in reservations && e in c.pool
    ensures Attached(Unreserve(c, reservations[id]), e) == (Attached(c, e) && e != id)
  {
  }

  lemma UnreserveRest(w: World, id: EntryId)
    requires w.core.Linked() && ReservationsOk(w.core, w.reservations) && HandlesOk(w.core, w.home, w.pending, w.closed)
    requires id in w.reservations && EntryOk(w.core, w.grants, id)
    ensures var d := Unreserve(w.core, w.reservations[id]);
            ReservationsOk(d, w.reservations - {id}) && HandlesOk(d, w.home, w.pending, w.closed)
  {
    var d := Unreserve(w.core, w.reservations[id]);
    forall e | e in d.pool ensures Attached(d, e) == (Attached(w.core, e) && e != id) {
      UnreserveDetaches(w.core, w.reservations, id, e);
    }
    assert w.core.pool[id].db.None?;
    hide Attached, Unreserve, EntryOk;
    assert d.pool == w.core.pool by { SamePool(w.core, w.reservations[id]); }
  }

  lemma SamePool(c: Core, name: DbName)
    ensures Unreserve(c, name).pool == c.pool
  {
  }

  lemma UnreserveKeeps(w: World, id: EntryId)
    requires Inv(w) && id in w.reservations
    ensures Inv(Apply(w, UnreserveDb(id)))
  {
    hide ThreadsOk, OpenersOk, GrantsOk, HandlesOk;
    assert EntryOk(w.core, w.grants, id);
    UnreserveEntries(w.core, w.grants, id);
    UnreserveRest(w, id);
  }

  lemma RemoveKeeps(w: World, name: DbName)
    requires Inv(w)
    ensures Inv(AfterRemove(w, name))
  {
    hide EntriesOk, ThreadsOk, OpenersOk, GrantsOk, ReservationsOk, HandlesOk;
    if Remove(w.core, name).1.Claimed? {
      DetachOne(w, name);
      var (c, r) := DetachIdle(w.core, name);
      Rebacked(w.(core := c, pending := Defer(w.pending, r.db)), c.backends - {name});
    }
  }

  /** Starting a call and abandoning a wait. */
  lemma QuietKeeps(w: World, ev: Event)
    requires Inv(w) && Enabled(w, ev) && (ev.CallGet? || ev.Cancel?)
    ensures Inv(Apply(w, ev))
  {
    hide EntriesOk, OpenersOk, GrantsOk, ReservationsOk, HandlesOk;
    OpenersOnly(w.core.pool, w.threads, Apply(w, ev).threads);
  }

  lemma CloseKeeps(c: Core, home: map<HandleId, EntryId>, pending: multiset<HandleId>,
                   closed: multiset<HandleId>, h: HandleId)
    requires HandlesOk(c, home, pending, closed) && h in pending
    ensures HandlesOk(c, home, pending - multiset{h}, closed + multiset{h})
  {
    forall k ensures (pending - multiset{h})[k] + (closed + multiset{h})[k] == pending[k] + closed[k] {}
  }

  /** Every step of every caller keeps the invariant. */
  lemma StepKeeps(w: World, ev: Event)
    requires Inv(w) && Enabled(w, ev)
    ensures Inv(Apply(w, ev))
  {
    hide EntriesOk, ThreadsOk, OpenersOk, GrantsOk, ReservationsOk, HandlesOk;
    match ev
    case EnterGet(t, id) => EnterKeeps(w, t, id);
    case OpenDone(t, got, g, now) => OpenKeeps(w, t, got, g, now);
    case WakeUp(t, g, now) => WakeKeeps(w, t, g, now);
    case Release(g, now) => ReleaseKeeps(w, g, now);
    case ReserveDb(name, id) => ReserveKeeps(w, name, id);
    case UnreserveDb(id) => UnreserveKeeps(w, id);
    case AddDb(name) => Rebacked(w, w.core.backends + {name});
    case RemoveDb(name) => RemoveKeeps(w, name);
    case ReapHandles(ttl, now) => Detach(w, IdleNames(w.core, ttl, now));
    case CloseDone(h) => CloseKeeps(w.core, w.home, w.pending, w.closed, h);
    case _ => QuietKeeps(w, ev);
  }

  // ---- Runs ----

  ghost function Next(w: World, ev: Event): (v: World)
    requires Inv(w) && Enabled(w, ev)
    ensures Inv(v)
  {
    StepKeeps(w, ev); Apply(w, ev)
  }

  ghost predicate Legal(w: World, evs: seq<Event>)
    requires Inv(w)
    decreases |evs|
  {
    |evs| == 0 ||
    (Enabled(w, evs[0]) && Legal(Next(w, evs[0]), evs[1..]))
  }

  ghost function Run(w: World, evs: seq<Event>): (r: World)
    requires Inv(w) && Legal(w, evs)
    ensures Inv(r)
    decreases |evs|
  {
    if |evs| == 0 then w else Run(Next(w, evs[0]), evs[1..])
  }

  /** The handle a grant gives access to. */
  ghost function Held(w: World, g: GrantId): Option<HandleId>
    requires Inv(w) && g in w.grants
  {
    w.core.pool[w.grants[g]].db
  }

  lemma GrantedEntry(w: World, g: GrantId)
    requires Inv(w) && g in w.grants
    ensures w.grants[g] in w.core.pool && Attached(w.core, w.grants[g]) && Held(w, g).Some?
    ensures !w.core.pool[w.grants[g]].reserved && !w.core.pool[w.grants[g]].opening
  {
    hide ThreadsOk, OpenersOk, ReservationsOk, HandlesOk;
    CountPositive(w.grants, g);
    assert EntryOk(w.core, w.grants, w.grants[g]);
  }

  /** A grant keeps its entry and its handle until its own release. */
  lemma GrantStays(w: World, ev: Event, g: GrantId)
    requires Inv(w) && Enabled(w, ev) && g in w.grants
    requires ev.Release? ==> ev.g != g
    ensures var v := Apply(w, ev);
            && g in v.grants && v.grants[g] == w.grants[g]
            && v.grants[g] in v.core.pool && v.core.pool[v.grants[g]].db == Held(w, g)
            && v.core.pool[v.grants[g]].name == w.core.pool[w.grants[g]].name
  {
    GrantedEntry(w, g);
    GrantKept(w, ev, g);
    PoolKept(w, ev, w.grants[g]);
    hide EntriesOk, ThreadsOk, OpenersOk, GrantsOk, ReservationsOk, HandlesOk;
    hide AfterEnter, AfterOpen, AfterWake, AfterRelease, AfterReserve, AfterRemove, DetachAll;
  }

  lemma GrantKept(w: World, ev: Event, g: GrantId)
    requires Inv(w) && Enabled(w, ev) && g in w.grants && (ev.Release? ==> ev.g != g)
    ensures g in Apply(w, ev).grants && Apply(w, ev).grants[g] == w.grants[g]
  {
    hide Enter, Publish, Awake, Unref, Reserve, Remove, HandlesOf, IdleNames;
    hide EntriesOk, ThreadsOk, OpenersOk, ReservationsOk, HandlesOk;
  }

  lemma MintedGrows(w: World, ev: Event)
    requires Inv(w) && Enabled(w, ev)
    ensures w.minted <= Apply(w, ev).minted
    ensures (ev.OpenDone? || ev.WakeUp?) && ev.g in Apply(w, ev).grants ==>
              ev.g in Apply(w, ev).minted && ev.g !in w.minted
  {
    hide Enter, Publish, Awake, Unref, Reserve, Remove, HandlesOf, IdleNames;
    hide EntriesOk, ThreadsOk, OpenersOk, ReservationsOk, HandlesOk;
  }

  /** The entry is still there, under its name and with its handle. */
  ghost predicate Kept(pool: map<EntryId, Entry>, pool': map<EntryId, Entry>, e: EntryId) {
    e in pool && e in pool' && pool'[e].db == pool[e].db && pool'[e].name == pool[e].name
  }

  lemma EnterPool(w: World, t: ThreadId, id: EntryId, e: EntryId)
    requires t in w.threads && w.threads[t].AtTop? && id !in w.core.pool && e in w.core.pool
    ensures Kept(w.core.pool, AfterEnter(w, t, id).core.pool, e)
  {
  }

  lemma OpenPool(w: World, t: ThreadId, got: Option<HandleId>, g: GrantId, now: Instant, e: EntryId)
    requires t in w.threads && w.threads[t].Opening? && w.threads[t].entry in w.core.pool
    requires e in w.core.pool && e != w.threads[t].entry
    ensures Kept(w.core.pool, AfterOpen(w, t, got, g, now).core.pool, e)
  {
  }

  lemma WakePool(w: World, t: ThreadId, g: GrantId, now: Instant, e: EntryId)
    requires t in w.threads && w.threads[t].Waiting? && w.threads[t].entry in w.core.pool && e in w.core.pool
    ensures Kept(w.core.pool, AfterWake(w, t, g, now).core.pool, e)
  {
  }

  lemma ReleasePool(w: World, g: GrantId, now: Instant, e: EntryId)
    requires (g in w.grants ==> w.grants[g] in w.core.pool) && e in w.core.pool
    ensures Kept(w.core.pool, AfterRelease(w, g, now).core.pool, e)
  {
  }

  lemma ReservePool(w: World, name: DbName, id: EntryId, e: EntryId)
    requires w.core.Linked() && id !in w.core.pool && e in w.core.pool
    ensures Kept(w.core.pool, AfterReserve(w, name, id).core.pool, e)
  {
  }

  lemma RemovePool(w: World, name: DbName, e: EntryId)
    requires w.core.Linked() && e in w.core.pool
    ensures Kept(w.core.pool, AfterRemove(w, name).core.pool, e)
  {
  }

  /** Only the opener changes an entry's handle, and only while it is opening. */
  lemma PoolKept(w: World, ev: Event, e: EntryId)
    requires Inv(w) && Enabled(w, ev) && e in w.core.pool && !w.core.pool[e].opening
    ensures Kept(w.core.pool, Apply(w, ev).core.pool, e)
  {
    hide EntriesOk, ThreadsOk, OpenersOk, GrantsOk, ReservationsOk, HandlesOk, Kept;
    hide AfterEnter, AfterOpen, AfterWake, AfterRelease, AfterReserve, AfterRemove, HandlesOf, IdleNames;
    match ev
    case EnterGet(t, id) => EnterPool(w, t, id, e);
    case OpenDone(t, got, g, now) =>
      OpensEntry(w.core.pool, w.threads, t);
      OpenPool(w, t, got, g, now, e);
    case WakeUp(t, g, now) => WakePool(w, t, g, now, e);
    case Release(g, now) =>
      GrantsEntry(w.core.pool, w.grants, w.minted, g);
      ReleasePool(w, g, now, e);
    case ReserveDb(name, id) => ReservePool(w, name, id, e);
    case RemoveDb(name) => RemovePool(w, name, e);
    case _ => KeptSame(w.core.pool, e);
  }

  lemma KeptSame(pool: map<EntryId, Entry>, e: EntryId)
    requires e in pool
    ensures Kept(pool, pool, e)
  {
  }

  lemma OpensEntry(pool: map<EntryId, Entry>, threads: map<ThreadId, Thread>, t: ThreadId)
    requires ThreadsOk(pool, threads) && t in threads && threads[t].Opening?
    ensures threads[t].entry in pool && pool[threads[t].entry].opening
  {
  }

  lemma GrantsEntry(pool: map<EntryId, Entry>, grants: map<GrantId, EntryId>, minted: set<GrantId>, g: GrantId)
    requires GrantsOk(pool, grants, minted)
    ensures g in grants ==> grants[g] in pool
  {
  }

  lemma HeldOpen(w: World, g: GrantId)
    requires Inv(w) && g in w.grants && Held(w, g).Some?
    ensures Held(w, g).value !in w.closed + w.pending
  {
    hide ThreadsOk, OpenersOk, ReservationsOk;
    GrantedEntry(w, g);
  }

  /** In every interleaving: counts are exact, an entry outside the map has no users,
      no handle is closed twice, a held handle is neither closed nor queued to be,
      and any other open handle is detached, unused and owned by exactly one closer. */
  lemma HandleSafety(backends: set<DbName>, evs: seq<Event>)
    requires Legal(Start(backends), evs)
    ensures var w := Run(Start(backends), evs);
            && (forall e <- w.core.pool ::
                  w.core.pool[e].refs == Count(w.grants, e) + (if w.core.pool[e].opening then 1 else 0))
            && (forall e <- w.core.pool :: !Attached(w.core, e) ==> w.core.pool[e].refs == 0)
            && (forall h :: w.closed[h] + w.pending[h] <= 1)
            && (forall g <- w.grants :: Held(w, g).Some? && Held(w, g).value !in w.closed + w.pending)
            && (forall h <- w.home :: h !in w.closed && !Attached(w.core, w.home[h]) ==>
                  w.pending[h] == 1 && Count(w.grants, w.home[h]) == 0)
  {
    hide ThreadsOk, OpenersOk, ReservationsOk;
    var w := Run(Start(backends), evs);
    forall e | e in w.core.pool
      ensures w.core.pool[e].refs == Count(w.grants, e) + (if w.core.pool[e].opening then 1 else 0)
      ensures !Attached(w.core, e) ==> w.core.pool[e].refs == 0 && Count(w.grants, e) == 0
    {
      assert EntryOk(w.core, w.grants, e);
    }
    forall g | g in w.grants
      ensures Held(w, g).Some? && Held(w, g).value !in w.closed + w.pending
    {
      GrantedEntry(w, g);
      HeldOpen(w, g);
    }
    forall h ensures w.closed[h] + w.pending[h] <= 1 {
      if h !in w.home { assert h !in w.pending && h !in w.closed; }
    }
  }

  // ---- Reservation ----

  /** The event gives somebody the database `name`: a handle, the opener's role,
      a reservation, or its removal. */
  ghost predicate Obtains(w: World, ev: Event, name: DbName)
    requires Inv(w) && Enabled(w, ev)
  {
    match ev
    case EnterGet(t, id) => w.threads[t].name == name && Enter(w.core, name, id).1.MustOpen?
    case OpenDone(t, got, _, _) => w.core.pool[w.threads[t].entry].name == name
    case WakeUp(t, _, now) => w.threads[t].name == name && Awake(w.core, name, w.threads[t].entry, now).1.Granted?
    case ReserveDb(n, id) => n == name && Reserve(w.core, name, id).1.Claimed?
    case RemoveDb(n) => n == name && Remove(w.core, name).1.Claimed?
    case _ => false
  }

  ghost predicate NoneObtains(w: World, evs: seq<Event>, name: DbName)
    requires Inv(w) && Legal(w, evs)
    decreases |evs|
  {
    |evs| == 0 ||
    (!Obtains(w, evs[0], name) && NoneObtains(Next(w, evs[0]), evs[1..], name))
  }

  lemma ReservedRefuses(w: World, ev: Event, id: EntryId)
    requires Inv(w) && Enabled(w, ev) && id in w.reservations
    ensures !Obtains(w, ev, w.reservations[id])
  {
  }

  lemma ReservedLasts(w: World, ev: Event, id: EntryId)
    requires Inv(w) && Enabled(w, ev) && id in w.reservations
    ensures ev != UnreserveDb(id) ==>
              id in Apply(w, ev).reservations && Apply(w, ev).reservations[id] == w.reservations[id]
    ensures ev == UnreserveDb(id) ==>
              && w.core.entries[w.reservations[id]] == id
              && Apply(w, ev).core == w.core.(entries := w.core.entries - {w.reservations[id]})
  {
    hide Enter, Publish, Awake, Unref, Remove, HandlesOf, IdleNames;
    hide EntriesOk, ThreadsOk, OpenersOk, GrantsOk, HandlesOk;
  }

  lemma ReservedUsers(w: World, id: EntryId)
    requires Inv(w) && id in w.reservations
    ensures forall g <- w.grants :: w.core.pool[w.grants[g]].name != w.reservations[id]
  {
    hide ThreadsOk, OpenersOk, HandlesOk;
    forall g | g in w.grants ensures w.core.pool[w.grants[g]].name != w.reservations[id] {
      GrantedEntry(w, g);
    }
  }

  /** From a successful Reserve until its release, over any run: nobody obtains the
      database, and nobody holds a handle of it. The release deletes its own
      placeholder and nothing else (`ReservedLasts`). */
  lemma {:induction false} ReservationExclusive(w: World, evs: seq<Event>, id: EntryId)
    requires Inv(w) && Legal(w, evs) && id in w.reservations
    requires UnreserveDb(id) !in evs
    ensures NoneObtains(w, evs, w.reservations[id])
    ensures id in Run(w, evs).reservations
    ensures var v := Run(w, evs);
            forall g <- v.grants :: v.core.pool[v.grants[g]].name != w.reservations[id]
    decreases |evs|
  {
    hide EntriesOk, ThreadsOk, OpenersOk, GrantsOk, ReservationsOk, HandlesOk;
    if |evs| == 0 {
      ReservedUsers(w, id);
    } else {
      assert evs[0] in evs;
      ReservedRefuses(w, evs[0], id);
      ReservedLasts(w, evs[0], id);
      ReservationExclusive(Next(w, evs[0]), evs[1..], id);
    }
  }

  // ---- Is a reserved database closed? ----

  /** `h` was opened for the database `name`. */
  ghost predicate HandleOf(w: World, h: HandleId, name: DbName) {
    h in w.home && w.home[h] in w.core.pool && w.core.pool[w.home[h]].name == name
  }

  ghost predicate AllClosed(w: World, name: DbName) {
    forall h :: HandleOf(w, h, name) ==> h in w.closed
  }

  /** Of a reserved database, the handles still open are those some closer owns. */
  lemma ReservedHandles(w: World, id: EntryId, h: HandleId)
    requires Inv(w) && id in w.reservations && HandleOf(w, h, w.reservations[id])
    ensures h in w.closed <==> h !in w.pending
  {
    hide ThreadsOk, OpenersOk, GrantsOk;
    assert EntryOk(w.core, w.grants, id);
  }

  lemma HomeKept(w: World, ev: Event, h: HandleId)
    requires Inv(w) && Enabled(w, ev)
    ensures h in w.home ==> h in Apply(w, ev).home && Apply(w, ev).home[h] == w.home[h]
    ensures h in Apply(w, ev).home && h !in w.home ==>
              ev.OpenDone? && ev.got == Some(h) && Apply(w, ev).home[h] == w.threads[ev.t].entry
    ensures w.closed <= Apply(w, ev).closed
  {
    hide EntriesOk, OpenersOk, ReservationsOk, HandlesOk;
    hide Enter, Awake, Unref, Reserve, Remove, Publish, HandlesOf, IdleNames;
  }

  /** While the database is reserved no handle is opened for it. */
  lemma HandlesFixed(w: World, ev: Event, id: EntryId, h: HandleId)
    requires Inv(w) && Enabled(w, ev) && id in w.reservations
    ensures HandleOf(Apply(w, ev), h, w.reservations[id]) <==> HandleOf(w, h, w.reservations[id])
  {
    HomeKept(w, ev, h);
    ReservedRefuses(w, ev, id);
    if h in w.home {
      HomeEntry(w, h);
      PoolKept(w, ev, w.home[h]);
      hide Inv, Enabled, Apply;
    } else if ev.OpenDone? {
      OpensEntry(w.core.pool, w.threads, ev.t);
      hide EntriesOk, ThreadsOk, OpenersOk, GrantsOk, ReservationsOk, HandlesOk;
    } else {
      hide Inv, Enabled, Apply;
    }
  }

  lemma HomeEntry(w: World, h: HandleId)
    requires Inv(w) && h in w.home
    ensures w.home[h] in w.core.pool && !w.core.pool[w.home[h]].opening
  {
    hide ThreadsOk, OpenersOk, GrantsOk, ReservationsOk;
    assert EntryOk(w.core, w.grants, w.home[h]);
  }

  lemma {:induction false} HandlesFixedRun(w: World, evs: seq<Event>, id: EntryId, h: HandleId)
    requires Inv(w) && Legal(w, evs) && id in w.reservations && UnreserveDb(id) !in evs
    ensures HandleOf(Run(w, evs), h, w.reservations[id]) <==> HandleOf(w, h, w.reservations[id])
    ensures w.closed <= Run(w, evs).closed
    decreases |evs|
  {
    hide Inv, Enabled, Apply, HandleOf;
    if |evs| > 0 {
      assert evs[0] in evs;
      HandlesFixed(w, evs[0], id, h);
      HomeKept(w, evs[0], h);
      ReservedLasts(w, evs[0], id);
      HandlesFixedRun(Next(w, evs[0]), evs[1..], id, h);
    }
  }

  /** `Reserve` closes the handle it detached and returns. By then every handle of the
      database is closed if and only if every other closer that had one pending when
      the reservation was made has finished. */
  lemma ReserveReturns(w: World, name: DbName, id: EntryId, evs: seq<Event>)
    requires Inv(w) && Enabled(w, ReserveDb(name, id)) && Reserve(w.core, name, id).1.Claimed?
    requires Legal(Next(w, ReserveDb(name, id)), evs) && UnreserveDb(id) !in evs
    requires var own := Reserve(w.core, name, id).1.db;
             own.Some? ==> own.value in Run(Next(w, ReserveDb(name, id)), evs).closed
    ensures var v := Run(Next(w, ReserveDb(name, id)), evs);
            AllClosed(v, name) <==> forall h :: HandleOf(w, h, name) && h in w.pending ==> h in v.closed
  {
    var w1 := Next(w, ReserveDb(name, id));
    var v := Run(w1, evs);
    ReservePlaces(w, name, id);
    hide Inv, Enabled, Apply, HandleOf, Reserve;
    forall h
      ensures HandleOf(v, h, name) <==> HandleOf(w, h, name)
      ensures HandleOf(v, h, name) && h !in v.closed ==> h in w.pending
    {
      HandlesFixedRun(w1, evs, id, h);
      ReserveQueues(w, name, id, h);
      if HandleOf(v, h, name) { ReservedHandles(w1, id, h); }
    }
  }

  /** A run after the reservation, up to its return or later: the reservation stands, and
      the handle it detached has been closed. */
  ghost predicate Returned(w: World, name: DbName, id: EntryId, evs: seq<Event>)
    requires Inv(w) && Enabled(w, ReserveDb(name, id)) && Reserve(w.core, name, id).1.Claimed?
  {
    var w1 := Next(w, ReserveDb(name, id));
    var own := Reserve(w.core, name, id).1.db;
    Legal(w1, evs) && UnreserveDb(id) !in evs && (own.Some? ==> own.value in Run(w1, evs).closed)
  }

  /** A closer other than the reservation itself still has a handle of the database. */
  ghost predicate ClosersPending(w: World, name: DbName) {
    exists h :: HandleOf(w, h, name) && h in w.pending
  }

  /** What can be told when reserving: the database is sure to be closed once `Reserve` has
      returned if and only if no other closer has one of its handles pending. */
  lemma ReserveExact(w: World, name: DbName, id: EntryId)
    requires Inv(w) && Enabled(w, ReserveDb(name, id)) && Reserve(w.core, name, id).1.Claimed?
    ensures (forall evs :: Returned(w, name, id, evs) ==> AllClosed(Run(Next(w, ReserveDb(name, id)), evs), name)) <==>
              !ClosersPending(w, name)
  {
    var w1 := Next(w, ReserveDb(name, id));
    if ClosersPending(w, name) {
      var h :| HandleOf(w, h, name) && h in w.pending;
      var evs := StillOpen(w, name, id, h);
      hide Inv, Enabled, Apply, HandleOf, Reserve, Returned;
    } else {
      hide Inv, Enabled, Apply, HandleOf, Reserve;
      forall evs | Returned(w, name, id, evs) ensures AllClosed(Run(w1, evs), name) {
        ReserveReturns(w, name, id, evs);
      }
    }
  }

  /** The run in which `Reserve` does its part and the other closer has not got to its. */
  lemma StillOpen(w: World, name: DbName, id: EntryId, h: HandleId) returns (evs: seq<Event>)
    requires Inv(w) && Enabled(w, ReserveDb(name, id)) && Reserve(w.core, name, id).1.Claimed?
    requires HandleOf(w, h, name) && h in w.pending
    ensures Returned(w, name, id, evs) && !AllClosed(Run(Next(w, ReserveDb(name, id)), evs), name)
  {
    hide EntriesOk, ThreadsOk, OpenersOk, GrantsOk, ReservationsOk, HandlesOk, Reserve, Apply, Enabled, HandleOf;
    var w1 := Next(w, ReserveDb(name, id));
    var own := Reserve(w.core, name, id).1.db;
    OwnQueued(w, name, id, h);
    ReservePlaces(w, name, id);
    hide Inv;
    if own.None? {
      evs := [];
      ReservedHandles(w1, id, h);
    } else {
      CloseLeaves(w1, own.value, h, name);
      evs := [CloseDone(own.value)];
      assert evs[1..] == [] && Legal(Next(w1, evs[0]), evs[1..]);
      assert Run(w1, evs) == Next(w1, evs[0]);
      ReservedHandles(Next(w1, evs[0]), id, h);
    }
  }

  lemma CloseLeaves(w: World, own: HandleId, h: HandleId, name: DbName)
    requires Inv(w) && own in w.pending && h in w.pending && h != own && HandleOf(w, h, name)
    ensures Enabled(w, CloseDone(own))
    ensures var v := Apply(w, CloseDone(own));
            own in v.closed && h in v.pending && HandleOf(v, h, name) && v.reservations == w.reservations
  {
    hide Inv;
  }

  lemma OwnQueued(w: World, name: DbName, id: EntryId, h: HandleId)
    requires Inv(w) && Enabled(w, ReserveDb(name, id)) && Reserve(w.core, name, id).1.Claimed?
    requires HandleOf(w, h, name) && h in w.pending
    ensures var v := Apply(w, ReserveDb(name, id)); var own := Reserve(w.core, name, id).1.db;
            && HandleOf(v, h, name) && h in v.pending && own != Some(h)
            && (own.Some? ==> own.value in v.pending)
  {
    hide ThreadsOk, OpenersOk, GrantsOk, ReservationsOk;
  }

  lemma ReservePlaces(w: World, name: DbName, id: EntryId)
    requires Inv(w) && Enabled(w, ReserveDb(name, id)) && Reserve(w.core, name, id).1.Claimed?
    ensures var v := Apply(w, ReserveDb(name, id)); id in v.reservations && v.reservations[id] == name
  {
    hide EntriesOk, ThreadsOk, OpenersOk, GrantsOk, ReservationsOk, HandlesOk;
  }

  lemma ReserveQueues(w: World, name: DbName, id: EntryId, h: HandleId)
    requires Inv(w) && Enabled(w, ReserveDb(name, id)) && Reserve(w.core, name, id).1.Claimed?
    ensures var v := Apply(w, ReserveDb(name, id));
            && v.closed == w.closed
            && (h in v.pending ==> h in w.pending || Reserve(w.core, name, id).1.db == Some(h))
            && (HandleOf(v, h, name) <==> HandleOf(w, h, name))
  {
    hide EntriesOk, ThreadsOk, OpenersOk, GrantsOk, ReservationsOk, HandlesOk;
    if h in w.home { HomeEntry(w, h); }
  }

  /** The failing family: whenever a handle is idle, a sweep followed by a reservation
      succeeds with nothing left to close while that handle is still open. */
  lemma ReservedWhileOpen(w: World, ttl: int, now: Instant, name: DbName, id: EntryId)
    requires Inv(w) && name in IdleNames(w.core, ttl, now) && name in w.core.backends && id !in w.core.pool
    ensures var v := Next(w, ReapHandles(ttl, now));
            && Enabled(v, ReserveDb(name, id)) && Reserve(v.core, name, id).1 == Claimed(None)
            && !AllClosed(Next(v, ReserveDb(name, id)), name)
  {
    hide EntriesOk, ThreadsOk, OpenersOk, GrantsOk, ReservationsOk, HandlesOk, HandlesOf, Apply, Reserve;
    var v := Next(w, ReapHandles(ttl, now));
    IdleOpen(w, ttl, now, name);
    Swept(w, ttl, now, name);
    ReserveFree(v.core, name, id);
    ReserveQueues(v, name, id, w.core.At(name).db.value);
  }

  lemma Swept(w: World, ttl: int, now: Instant, name: DbName)
    requires Inv(w) && name in IdleNames(w.core, ttl, now)
    ensures var v := Apply(w, ReapHandles(ttl, now));
            && name !in v.core.entries && v.core.pool == w.core.pool && v.core.backends == w.core.backends
            && v.home == w.home && v.closed == w.closed
  {
    hide EntriesOk, ThreadsOk, OpenersOk, GrantsOk, ReservationsOk, HandlesOk, HandlesOf;
  }

  lemma ReserveFree(c: Core, name: DbName, id: EntryId)
    requires c.Linked() && name in c.backends && name !in c.entries
    ensures Reserve(c, name, id).1 == Claimed(None)
  {
  }

  lemma IdleOpen(w: World, ttl: int, now: Instant, name: DbName)
    requires Inv(w) && name in IdleNames(w.core, ttl, now)
    ensures var h := w.core.At(name).db.value; HandleOf(w, h, name) && h !in w.closed
  {
    hide ThreadsOk, OpenersOk, GrantsOk, ReservationsOk;
  }

  /** The list the sweep hands to its closer is the multiset the run queues. */
  lemma SweepCloses(w: World, ttl: int, now: Instant, names: seq<DbName>, toClose: seq<HandleId>)
    requires Inv(w)
    requires Enumerates(names, IdleNames(w.core, ttl, now)) && HandlesAre(w.core, names, toClose)
    ensures Apply(w, ReapHandles(ttl, now)).pending == w.pending + multiset(toClose)
    ensures Apply(w, ReapHandles(ttl, now)).core == Reap(w.core, ttl, now)
  {
    hide ThreadsOk, OpenersOk, GrantsOk, ReservationsOk;
    forall i, j | 0 <= i < j < |toClose| ensures toClose[i] != toClose[j] {
      assert w.core.At(names[i]) != w.core.At(names[j]);
      assert w.home[toClose[i]] == w.core.entries[names[i]];
      assert w.home[toClose[j]] == w.core.entries[names[j]];
    }
    DistinctMultiset(toClose);
    var all := HandlesOf(w.core, IdleNames(w.core, ttl, now));
    forall h ensures h in toClose <==> h in all {
      if h in toClose {
        var i :| 0 <= i < |toClose| && toClose[i] == h;
        assert names[i] in names;
      }
      if h in all {
        var n :| n in IdleNames(w.core, ttl, now) && w.core.At(n).db.value == h;
        assert n in names;
        var i :| 0 <= i < |names| && names[i] == n;
      }
    }
    assert (set h | h in toClose) == all;
  }

  lemma {:induction false} DistinctMultiset(s: seq<HandleId>)
    requires forall i, j :: 0 <= i < j < |s| ==> s[i] != s[j]
    ensures multiset(s) == multiset(set h | h in s)
    decreases |s|
  {
    if |s| > 0 {
      var t := s[..|s| - 1];
      var h := s[|s| - 1];
      DistinctMultiset(t);
      assert s == t + [h];
      assert (set x | x in s) == (set x | x in t) + {h};
    }
  }
}
