/** What each call of the registry answers, told from who holds what rather than from the
    registry's own fields, and how long an idle handle is kept (registry/registry.go). */
module RegistryAnswers {
  import opened Basics
  import opened Registry
  import opened RegistryRuns

  /** Nobody has the database `name`: no unreleased handle, no open under way, and no
      reservation. */
  ghost predicate Free(w: World, name: DbName) {
    && (forall g <- w.grants :: w.grants[g] in w.core.pool ==> w.core.pool[w.grants[g]].name != name)
    && (forall t <- w.threads :: w.threads[t].Opening? && w.threads[t].entry in w.core.pool ==>
          w.core.pool[w.threads[t].entry].name != name)
    && (forall id <- w.reservations :: w.reservations[id] != name)
  }

  /** `h` is the handle of `name` that lookups are given: open, with nobody to close it. */
  ghost predicate Serving(w: World, h: HandleId, name: DbName) {
    HandleOf(w, h, name) && h !in w.closed && h !in w.pending
  }

  /** The unreleased grant `g` is for handle `h`, through entry `e`. */
  ghost predicate Has(w: World, g: GrantId, e: EntryId, h: Option<HandleId>) {
    g in w.grants && w.grants[g] == e && e in w.core.pool && h.Some? && w.core.pool[e].db == h
  }

  // ---- Lookups ----

  /** The first section of a lookup: wait for the entry that is there, become the opener
      of a known database, or fail on an unknown one with nothing changed. */
  lemma EnterAnswers(w: World, t: ThreadId, id: EntryId)
    requires Inv(w) && Enabled(w, EnterGet(t, id))
    ensures var name := w.threads[t].name; var v := Apply(w, EnterGet(t, id));
            if name in w.core.entries then v == w.(threads := w.threads[t := Waiting(name, w.core.entries[name])])
            else if name !in w.core.backends then v == w.(threads := w.threads - {t})
            else
              && v == w.(core := v.core, threads := w.threads[t := Opening(id)])
              && id in v.core.pool && v.core.pool[id].name == name && v.core.pool[id].opening && Attached(v.core, id)
              && v.core.entries == w.core.entries[name := id] && v.core.backends == w.core.backends
  {
    hide EntriesOk, ThreadsOk, OpenersOk, GrantsOk, ReservationsOk, HandlesOk;
  }

  /** The opener: it holds exactly the handle it opened, which now serves the name; if the
      open failed it holds nothing and the name is free for the next lookup to try. */
  lemma OpenAnswers(w: World, t: ThreadId, got: Option<HandleId>, g: GrantId, now: Instant)
    requires Inv(w) && Enabled(w, OpenDone(t, got, g, now))
    ensures w.threads[t].entry in w.core.pool
    ensures var e := w.threads[t].entry; var v := AfterOpen(w, t, got, g, now);
            && t !in v.threads
            && var name := w.core.pool[e].name;
               if got.Some? then
                 Has(v, g, e, got) && Serving(v, got.value, name) && Attached(v.core, e)
               else v.grants == w.grants && name !in v.core.entries
  {
    hide EntriesOk, ThreadsOk, OpenersOk, GrantsOk, ReservationsOk, HandlesOk;
    OpenAttached(w, t);
    PublishOn(w.core, w.threads[t].entry, got, now);
    hide Publish, Attached;
    if got.Some? {
      NewHandle(w, got.value);
    }
  }

  lemma NewHandle(w: World, h: HandleId)
    requires HandlesOk(w.core, w.home, w.pending, w.closed) && h !in w.home
    ensures h !in w.pending && h !in w.closed
  {
  }

  lemma PublishOn(c: Core, e: EntryId, got: Option<HandleId>, now: Instant)
    requires e in c.pool && Attached(c, e)
    ensures var d := Publish(c, e, got, now);
            && e in d.pool && d.pool[e].name == c.pool[e].name && d.pool.Keys == c.pool.Keys
            && (got.Some? ==> d.pool[e].db == got && Attached(d, e))
            && (got.None? ==> c.pool[e].name !in d.entries)
  {
  }

  lemma OpenAttached(w: World, t: ThreadId)
    requires Inv(w) && t in w.threads && w.threads[t].Opening?
    ensures w.threads[t].entry in w.core.pool && Attached(w.core, w.threads[t].entry)
    ensures w.core.pool[w.threads[t].entry].opening && w.core.pool[w.threads[t].entry].db.None?
  {
    hide OpenersOk, GrantsOk, ReservationsOk, HandlesOk;
    assert EntryOk(w.core, w.grants, w.threads[t].entry);
  }

  /** A waiter is given the handle that serves the name, and holds it, if and only if its
      entry is still in the map and is no placeholder. It starts over if and only if the
      entry has left the map; the error of a failed open is never passed on to it. */
  lemma WakeAnswers(w: World, t: ThreadId, g: GrantId, now: Instant)
    requires Inv(w) && Enabled(w, WakeUp(t, g, now))
    ensures WokenAs(w, t, g, Awake(w.core, w.threads[t].name, w.threads[t].entry, now).1, AfterWake(w, t, g, now))
  {
    hide EntriesOk, ThreadsOk, OpenersOk, GrantsOk, ReservationsOk, HandlesOk, Serving, Awake;
    WaitsEntry(w.core.pool, w.threads, t);
    var Waiting(name, e) := w.threads[t];
    EntryFacts(w, e);
    if Attached(w.core, e) && !w.core.pool[e].reserved {
      AttachedServes(w, e);
    }
    AwakeOn(w.core, name, e, now);
    hide Inv, Attached;
  }

  ghost predicate WokenAs(w: World, t: ThreadId, g: GrantId, r: AwakeResult, v: World)
    requires t in w.threads && w.threads[t].Waiting? && w.threads[t].entry in w.core.pool
  {
    var Waiting(name, e) := w.threads[t];
    && (r.Granted? <==> Attached(w.core, e) && e !in w.reservations)
    && (r == IsReserved <==> e in w.reservations)
    && (r == Retry <==> !Attached(w.core, e))
    && r != OpenFailed
    && (r.Granted? ==>
          r.db.Some? && Serving(w, r.db.value, name) && Has(v, g, e, r.db) && v.threads == w.threads - {t})
    && (r == Retry ==> v == w.(threads := w.threads[t := AtTop(name)]))
    && (r == IsReserved ==> v == w.(threads := w.threads - {t}))
  }

  lemma AwakeOn(c: Core, name: DbName, e: EntryId, now: Instant)
    requires e in c.pool && c.pool[e].name == name && (Attached(c, e) ==> !c.pool[e].failed)
    ensures var (d, r) := Awake(c, name, e, now); var x := c.pool[e];
            if !Attached(c, e) then r == Retry && d == c
            else if x.reserved then r == IsReserved && d == c
            else r == Granted(x.db) && d == c.(pool := c.pool[e := x.(refs := x.refs + 1, last := now)])
  {
  }

  lemma EntryFacts(w: World, e: EntryId)
    requires Inv(w) && e in w.core.pool
    ensures e in w.reservations <==> Attached(w.core, e) && w.core.pool[e].reserved
    ensures Attached(w.core, e) ==> !w.core.pool[e].failed
  {
    hide ThreadsOk, OpenersOk, GrantsOk, HandlesOk;
    assert EntryOk(w.core, w.grants, e);
  }

  lemma AttachedServes(w: World, e: EntryId)
    requires Inv(w) && e in w.core.pool && Attached(w.core, e) && !w.core.pool[e].opening && !w.core.pool[e].reserved
    ensures w.core.pool[e].db.Some? && Serving(w, w.core.pool[e].db.value, w.core.pool[e].name)
  {
    hide ThreadsOk, OpenersOk, GrantsOk, ReservationsOk;
    assert EntryOk(w.core, w.grants, e);
  }

  // ---- Claims ----

  /** The entry in the map is in use exactly while somebody has the database. */
  lemma FreeExact(w: World, name: DbName)
    requires Inv(w)
    ensures Free(w, name) <==> (name in w.core.entries ==> !InUse(w.core.At(name)))
  {
    if name in w.core.entries && InUse(w.core.At(name)) {
      InUseBySomebody(w, name);
    }
    if !Free(w, name) {
      SomebodyInUse(w, name);
    }
  }

  lemma InUseBySomebody(w: World, name: DbName)
    requires Inv(w) && name in w.core.entries && InUse(w.core.At(name))
    ensures !Free(w, name)
  {
    hide ThreadsOk, GrantsOk, HandlesOk;
    var e := w.core.entries[name];
    var x := w.core.pool[e];
    assert EntryOk(w.core, w.grants, e);
    if x.opening {
      var t :| t in w.threads && w.threads[t] == Opening(e);
    } else if x.refs > 0 {
      var g :| g in KeysWith(w.grants, e);
    }
  }

  lemma SomebodyInUse(w: World, name: DbName)
    requires Inv(w) && !Free(w, name)
    ensures name in w.core.entries && InUse(w.core.At(name))
  {
    hide OpenersOk, HandlesOk;
    if id :| id in w.reservations && w.reservations[id] == name {
    } else if t :| t in w.threads && w.threads[t].Opening? && w.threads[t].entry in w.core.pool
                   && w.core.pool[w.threads[t].entry].name == name {
      OpenAttached(w, t);
    } else {
      var g :| g in w.grants && w.grants[g] in w.core.pool && w.core.pool[w.grants[g]].name == name;
      GrantedEntry(w, g);
      CountPositive(w.grants, g);
      assert EntryOk(w.core, w.grants, w.grants[g]);
    }
  }

  /** The answer both claims give: unknown, busy, or claimed together with the handle that
      was serving the name, if any. */
  ghost predicate Answers(w: World, name: DbName, r: ClaimResult) {
    && (r == NoSuchDb <==> name !in w.core.backends)
    && (r.Claimed? <==> name in w.core.backends && Free(w, name))
    && (r.Claimed? ==> forall h: HandleId :: r.db == Some(h) <==> Serving(w, h, name))
  }

  /** A reservation succeeds if and only if the database is known and nobody has it. */
  lemma ReserveAnswers(w: World, name: DbName, id: EntryId)
    requires Inv(w) && Enabled(w, ReserveDb(name, id))
    ensures Answers(w, name, Reserve(w.core, name, id).1)
    ensures !Reserve(w.core, name, id).1.Claimed? ==> AfterReserve(w, name, id) == w
  {
    hide EntriesOk, ThreadsOk, OpenersOk, GrantsOk, ReservationsOk, HandlesOk, Free, Serving, InUse;
    FreeExact(w, name);
    ServingExact(w, name);
  }

  /** A removal succeeds under the same condition, and the database is then unknown. */
  lemma RemoveAnswers(w: World, name: DbName)
    requires Inv(w)
    ensures var r := Remove(w.core, name).1; var v := AfterRemove(w, name);
            && Answers(w, name, r) && (!r.Claimed? ==> v == w)
            && (r.Claimed? ==> v.core.backends == w.core.backends - {name} && name !in v.core.entries)
  {
    hide EntriesOk, ThreadsOk, OpenersOk, GrantsOk, ReservationsOk, HandlesOk, Free, Serving, InUse;
    FreeExact(w, name);
    ServingExact(w, name);
  }

  /** The handle that serves a name is the one of its entry, once that is open. */
  lemma ServingExact(w: World, name: DbName)
    requires Inv(w)
    ensures forall h: HandleId :: Serving(w, h, name) <==> name in w.core.entries && w.core.At(name).db == Some(h)
  {
    hide ThreadsOk, OpenersOk, GrantsOk, ReservationsOk;
    forall h: HandleId | name in w.core.entries && w.core.At(name).db == Some(h) ensures Serving(w, h, name) {
      assert EntryOk(w.core, w.grants, w.core.entries[name]);
    }
  }

  /** Adding makes a database known, and is refused if it is. */
  lemma AddAnswers(w: World, name: DbName)
    requires Inv(w)
    ensures Add(w.core, name).1 <==> name !in w.core.backends
    ensures Apply(w, AddDb(name)) == w.(core := w.core.(backends := w.core.backends + {name}))
  {
    hide EntriesOk, ThreadsOk, OpenersOk, GrantsOk, ReservationsOk, HandlesOk;
    assert name in w.core.backends ==> w.core.backends + {name} == w.core.backends;
  }

  // ---- How long an idle handle is kept ----

  /** A sweep takes the databases that are open, that nobody has, and that were last used
      at least `ttl` ago; none at all if `ttl` is not positive. */
  lemma IdleExact(w: World, ttl: int, now: Instant, name: DbName)
    requires Inv(w)
    ensures name in IdleNames(w.core, ttl, now) <==>
              ttl > 0 && name in w.core.entries && Free(w, name) && now >= w.core.At(name).last + ttl
  {
    FreeExact(w, name);
    if name in w.core.entries && !InUse(w.core.At(name)) {
      AttachedServes(w, w.core.entries[name]);
    }
    hide EntriesOk, ThreadsOk, OpenersOk, GrantsOk, ReservationsOk, HandlesOk, Free, Serving;
  }

  /** The step is a use of entry `e`: it is opened, handed to a waiter, or released. */
  ghost predicate Uses(w: World, ev: Event, e: EntryId) {
    match ev
    case OpenDone(t, got, _, _) => t in w.threads && w.threads[t] == Opening(e) && got.Some?
    case WakeUp(t, _, _) =>
      && t in w.threads && w.threads[t].Waiting? && w.threads[t].entry == e && e in w.core.pool && Attached(w.core, e)
      && e !in w.reservations
    case Release(g, _) => g in w.grants && w.grants[g] == e
    case _ => false
  }

  /** The step leaves the entry as it is, and in the map if it was. */
  ghost predicate Untouched(c: Core, c': Core, e: EntryId) {
    e in c.pool && e in c'.pool && c'.pool[e] == c.pool[e] && (Attached(c, e) ==> Attached(c', e))
  }

  lemma EnterUntouched(c: Core, name: DbName, id: EntryId, e: EntryId)
    requires id !in c.pool && e in c.pool
    ensures Untouched(c, Enter(c, name, id).0, e)
  {
  }

  lemma ReserveUntouched(c: Core, name: DbName, id: EntryId, e: EntryId)
    requires c.Linked() && e in c.pool && id !in c.pool
    ensures e in Reserve(c, name, id).0.pool && Reserve(c, name, id).0.pool[e] == c.pool[e]
    ensures c.pool[e].name != name ==> Untouched(c, Reserve(c, name, id).0, e)
  {
  }

  /** An entry carries the time of its last use. */
  lemma Stamps(w: World, ev: Event, e: EntryId)
    requires Inv(w) && Enabled(w, ev) && e in w.core.pool
    ensures e in Apply(w, ev).core.pool
    ensures Apply(w, ev).core.pool[e].last == if Uses(w, ev, e) then ev.now else w.core.pool[e].last
  {
    hide EntriesOk, ThreadsOk, OpenersOk, GrantsOk, ReservationsOk, HandlesOk, HandlesOf, IdleNames;
    hide Enter, Reserve, Remove, AfterWake, AfterOpen;
    match ev
    case EnterGet(t, id) => EnterUntouched(w.core, w.threads[t].name, id, e);
    case WakeUp(t, g, now) => WakeStamps(w, t, g, now, e);
    case OpenDone(t, got, g, now) => OpenStamps(w, t, got, g, now, e);
    case Release(g, now) => GrantsEntry(w.core.pool, w.grants, w.minted, g);
    case ReserveDb(name, id) => ReserveUntouched(w.core, name, id, e);
    case RemoveDb(name) => RemoveUntouched(w.core, name, e);
    case _ =>
  }

  lemma RemoveUntouched(c: Core, name: DbName, e: EntryId)
    requires c.Linked() && e in c.pool
    ensures Remove(c, name).0.pool == c.pool
    ensures c.pool[e].name != name ==> Untouched(c, Remove(c, name).0, e)
  {
  }

  lemma WakeStamps(w: World, t: ThreadId, g: GrantId, now: Instant, e: EntryId)
    requires Inv(w) && Enabled(w, WakeUp(t, g, now)) && e in w.core.pool
    ensures var v := AfterWake(w, t, g, now);
            && e in v.core.pool
            && v.core.pool[e].last == if Uses(w, WakeUp(t, g, now), e) then now else w.core.pool[e].last
  {
    hide EntriesOk, ThreadsOk, OpenersOk, GrantsOk, ReservationsOk, HandlesOk, Awake;
    WaitsEntry(w.core.pool, w.threads, t);
    var Waiting(name, x) := w.threads[t];
    EntryFacts(w, x);
    AwakeOn(w.core, name, x, now);
    hide Inv, Attached;
  }

  lemma OpenStamps(w: World, t: ThreadId, got: Option<HandleId>, g: GrantId, now: Instant, e: EntryId)
    requires Inv(w) && Enabled(w, OpenDone(t, got, g, now)) && e in w.core.pool
    ensures w.threads[t].entry in w.core.pool
    ensures var v := AfterOpen(w, t, got, g, now);
            && e in v.core.pool
            && v.core.pool[e].last == if Uses(w, OpenDone(t, got, g, now), e) then now else w.core.pool[e].last
  {
    hide EntriesOk, ThreadsOk, OpenersOk, GrantsOk, ReservationsOk, HandlesOk;
    OpensEntry(w.core.pool, w.threads, t);
    hide Inv;
  }

  /** The entry serves its name and was used at `since` or later. */
  ghost predicate InService(w: World, e: EntryId, h: HandleId, since: Instant) {
    e in w.core.pool && Attached(w.core, e) && w.core.pool[e].db == Some(h) && w.core.pool[e].last >= since
  }

  /** A step of a clock at or past `since` that neither reserves nor removes the name, nor
      sweeps with a limit already reached. */
  predicate Sparing(ev: Event, name: DbName, since: Instant) {
    match ev
    case OpenDone(_, _, _, now) => now >= since
    case WakeUp(_, _, now) => now >= since
    case Release(_, now) => now >= since
    case ReserveDb(n, _) => n != name
    case RemoveDb(n) => n != name
    case ReapHandles(ttl, now) => now < since + ttl
    case _ => true
  }

  lemma ServiceStep(w: World, ev: Event, e: EntryId, h: HandleId, since: Instant)
    requires Inv(w) && Enabled(w, ev) && InService(w, e, h, since) && Sparing(ev, w.core.pool[e].name, since)
    ensures InService(Apply(w, ev), e, h, since) && Apply(w, ev).core.pool[e].name == w.core.pool[e].name
  {
    ServiceOpen(w, e);
    Stamps(w, ev, e);
    PoolKept(w, ev, e);
    StaysAttached(w, ev, e, since);
    hide Inv, Enabled, Apply, Attached;
  }

  lemma ServiceOpen(w: World, e: EntryId)
    requires Inv(w) && e in w.core.pool && w.core.pool[e].db.Some?
    ensures !w.core.pool[e].opening && !w.core.pool[e].reserved && e !in w.reservations
  {
    hide ThreadsOk, OpenersOk, GrantsOk, HandlesOk;
    assert EntryOk(w.core, w.grants, e);
  }

  lemma StaysAttached(w: World, ev: Event, e: EntryId, since: Instant)
    requires Inv(w) && Enabled(w, ev) && e in w.core.pool && Attached(w.core, e) && w.core.pool[e].db.Some?
    requires w.core.pool[e].last >= since && Sparing(ev, w.core.pool[e].name, since)
    requires e in Apply(w, ev).core.pool && Apply(w, ev).core.pool[e].name == w.core.pool[e].name
    ensures Attached(Apply(w, ev).core, e)
  {
    hide EntriesOk, ThreadsOk, OpenersOk, GrantsOk, ReservationsOk, HandlesOk, HandlesOf, IdleNames, Unreserve;
    hide Enter, Reserve, Remove, AfterOpen, AfterWake, AfterRelease, DetachAll;
    match ev
    case EnterGet(t, id) => EnterUntouched(w.core, w.threads[t].name, id, e);
    case OpenDone(t, got, g, now) => OpenSpares(w, t, got, g, now, e);
    case WakeUp(t, g, now) => EntriesKept(w, t, g, now);
    case Release(g, now) =>
      GrantsEntry(w.core.pool, w.grants, w.minted, g);
      EntriesKept(w, 0, g, now);
    case ReserveDb(name, id) => ReserveUntouched(w.core, name, id, e);
    case RemoveDb(name) => RemoveUntouched(w.core, name, e);
    case ReapHandles(ttl, now) => SweepSpares(w, ttl, now, e);
    case UnreserveDb(id) =>
      ServiceOpen(w, e);
      UnreserveDetaches(w.core, w.reservations, id, e);
    case _ =>
  }

  lemma OpenSpares(w: World, t: ThreadId, got: Option<HandleId>, g: GrantId, now: Instant, e: EntryId)
    requires Inv(w) && Enabled(w, OpenDone(t, got, g, now))
    requires e in w.core.pool && Attached(w.core, e) && w.core.pool[e].db.Some?
    ensures w.threads[t].entry in w.core.pool
    ensures e in AfterOpen(w, t, got, g, now).core.pool && Attached(AfterOpen(w, t, got, g, now).core, e)
  {
    hide EntriesOk, ThreadsOk, OpenersOk, GrantsOk, ReservationsOk, HandlesOk, Publish, Attached;
    OpenAttached(w, t);
    PublishSpares(w.core, w.threads[t].entry, got, now, e);
  }

  lemma EntriesKept(w: World, t: ThreadId, g: GrantId, now: Instant)
    ensures t in w.threads && w.threads[t].Waiting? && w.threads[t].entry in w.core.pool ==>
              AfterWake(w, t, g, now).core.entries == w.core.entries
    ensures (g in w.grants ==> w.grants[g] in w.core.pool) ==>
              AfterRelease(w, g, now).core.entries == w.core.entries
  {
  }

  lemma SweepSpares(w: World, ttl: int, now: Instant, e: EntryId)
    requires Inv(w) && e in w.core.pool && Attached(w.core, e) && now < w.core.pool[e].last + ttl
    ensures var names := IdleNames(w.core, ttl, now);
            && names <= w.core.entries.Keys && (forall n <- names :: w.core.At(n).db.Some?)
            && Attached(DetachAll(w, names).core, e)
  {
    hide EntriesOk, ThreadsOk, OpenersOk, GrantsOk, ReservationsOk, HandlesOk, HandlesOf;
    IdleExact(w, ttl, now, w.core.pool[e].name);
  }

  lemma PublishSpares(c: Core, x: EntryId, got: Option<HandleId>, now: Instant, e: EntryId)
    requires x in c.pool && e in c.pool && Attached(c, x) && Attached(c, e) && x != e
    ensures e in Publish(c, x, got, now).pool && Attached(Publish(c, x, got, now), e)
  {
  }

  /** A handle used at `since` goes on serving its name, through any run whose sweeps come
      before `since` plus their limit and that neither reserves nor removes the name. */
  lemma {:induction false} KeptWhileFresh(w: World, evs: seq<Event>, e: EntryId, h: HandleId, since: Instant)
    requires Inv(w) && Legal(w, evs) && InService(w, e, h, since)
    requires forall ev <- evs :: Sparing(ev, w.core.pool[e].name, since)
    ensures InService(Run(w, evs), e, h, since) && Serving(Run(w, evs), h, w.core.pool[e].name)
    decreases |evs|
  {
    if |evs| == 0 {
      ServiceOpen(w, e);
      AttachedServes(w, e);
    } else {
      assert evs[0] in evs && forall ev <- evs[1..] :: ev in evs;
      ServiceStep(w, evs[0], e, h, since);
      hide Inv, Enabled, Apply, InService, Serving;
      KeptWhileFresh(Next(w, evs[0]), evs[1..], e, h, since);
    }
  }
}
