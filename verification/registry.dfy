/** The handle registry (registry/registry.go): one lazily opened, reference-counted
    handle per database name.

    Every critical section of the source is one function on `Core`, the registry's
    fields; the class below performs the same critical sections by updating those
    fields in place and is proved equal to the functions. `RegistryRuns` interleaves
    them. */
module Registry {
  import opened Basics

  type EntryId = nat
  type HandleId = nat

  /** One entry of the map. Entries are shared by pointer in the source, so they are
      kept here by identity in `pool`, in or out of the map. */
  datatype Entry = Entry(
    name: DbName,
    opening: bool,
    db: Option<HandleId>,
    failed: bool,
    refs: int,
    last: Instant,
    reserved: bool)

  datatype Core = Core(
    entries: map<DbName, EntryId>,
    pool: map<EntryId, Entry>,
    backends: set<DbName>)
  {
    /** Every pointer in the map points to an entry. */
    ghost predicate Linked() {
      forall n <- entries :: entries[n] in pool
    }

    function At(name: DbName): Entry
      requires Linked() && name in entries
    {
      pool[entries[name]]
    }
  }

  datatype EnterResult = UnknownDb | MustOpen | MustWait(entry: EntryId)
  datatype AwakeResult = Retry | OpenFailed | IsReserved | Granted(db: Option<HandleId>)
  datatype DetachResult = Refused | Detached(db: Option<HandleId>)
  datatype ClaimResult = NoSuchDb | Busy | Claimed(db: Option<HandleId>)

  function Opener(name: DbName): Entry {
    Entry(name, true, None, false, 1, 0, false)
  }

  function Placeholder(name: DbName): Entry {
    Entry(name, false, None, false, 0, 0, true)
  }

  // ---- Critical sections as functions of the registry's fields ----

  /** First section of `Get`; `id` is the identity of a newly allocated entry. */
  function Enter(c: Core, name: DbName, id: EntryId): (Core, EnterResult) {
    if name in c.entries then
      (c, MustWait(c.entries[name]))
    else if name !in c.backends then
      (c, UnknownDb)
    else
      (c.(entries := c.entries[name := id], pool := c.pool[id := Opener(name)]), MustOpen)
  }

  /** The opener's second section: publish the handle, or drop the poisoned entry. */
  function Publish(c: Core, e: EntryId, got: Option<HandleId>, now: Instant): Core
    requires e in c.pool
  {
    var x := c.pool[e];
    match got
    case Some(h) =>
      c.(pool := c.pool[e := x.(opening := false, db := Some(h), last := now)])
    case None =>
      c.(pool := c.pool[e := x.(opening := false, failed := true, refs := 0)],
         entries := c.entries - {x.name})
  }

  /** A waiter's section once the entry it captured is ready. */
  function Awake(c: Core, name: DbName, e: EntryId, now: Instant): (Core, AwakeResult)
    requires e in c.pool
  {
    var x := c.pool[e];
    if name !in c.entries || c.entries[name] != e then (c, Retry)
    else if x.failed then (c, OpenFailed)
    else if x.reserved then (c, IsReserved)
    else (c.(pool := c.pool[e := x.(refs := x.refs + 1, last := now)]), Granted(x.db))
  }

  /** The body of a release function, run at most once per grant. */
  function Unref(c: Core, e: EntryId, now: Instant): Core
    requires e in c.pool
  {
    c.(pool := c.pool[e := c.pool[e].(refs := c.pool[e].refs - 1, last := now)])
  }

  predicate InUse(x: Entry) {
    x.opening || x.refs > 0 || x.reserved
  }

  function DetachIdle(c: Core, name: DbName): (Core, DetachResult)
    requires c.Linked()
  {
    if name !in c.entries then (c, Detached(None))
    else if InUse(c.At(name)) then (c, Refused)
    else (c.(entries := c.entries - {name}), Detached(c.At(name).db))
  }

  function Reserve(c: Core, name: DbName, id: EntryId): (Core, ClaimResult)
    requires c.Linked()
  {
    if name !in c.backends then (c, NoSuchDb)
    else
      var (d, r) := DetachIdle(c, name);
      match r
      case Refused => (c, Busy)
      case Detached(db) =>
        (d.(entries := d.entries[name := id], pool := d.pool[id := Placeholder(name)]), Claimed(db))
  }

  /** The function returned by a successful `Reserve`. */
  function Unreserve(c: Core, name: DbName): Core {
    c.(entries := c.entries - {name})
  }

  function Add(c: Core, name: DbName): (Core, bool) {
    if name in c.backends then (c, false) else (c.(backends := c.backends + {name}), true)
  }

  function Remove(c: Core, name: DbName): (Core, ClaimResult)
    requires c.Linked()
  {
    if name !in c.backends then (c, NoSuchDb)
    else
      var (d, r) := DetachIdle(c, name);
      match r
      case Refused => (c, Busy)
      case Detached(db) => (d.(backends := d.backends - {name}), Claimed(db))
  }

  predicate Idle(x: Entry, ttl: int, now: Instant) {
    !InUse(x) && x.db.Some? && now - x.last >= ttl
  }

  function IdleNames(c: Core, ttl: int, now: Instant): set<DbName>
    requires c.Linked()
  {
    if ttl <= 0 then {} else set n | n in c.entries && Idle(c.At(n), ttl, now)
  }

  function Reap(c: Core, ttl: int, now: Instant): Core
    requires c.Linked()
  {
    c.(entries := c.entries - IdleNames(c, ttl, now))
  }

  ghost predicate HandlesAre(c: Core, names: seq<DbName>, handles: seq<HandleId>)
    requires c.Linked()
  {
    && |names| == |handles|
    && forall i :: 0 <= i < |names| ==> names[i] in c.entries && c.At(names[i]).db == Some(handles[i])
  }

  // ---- The registry object ----

  class Registry {
    var entries: map<DbName, EntryId>
    var pool: map<EntryId, Entry>
    var backends: set<DbName>

    ghost function Fields(): Core
      reads this
    {
      Core(entries, pool, backends)
    }

    constructor (names: set<DbName>)
      ensures Fields() == Core(map[], map[], names)
    {
      entries, pool, backends := map[], map[], names;
    }

    method GetEnter(name: DbName, id: EntryId) returns (r: EnterResult)
      requires Fields().Linked() && id !in pool
      modifies this
      ensures (Fields(), r) == Enter(old(Fields()), name, id)
    {
      if name in entries {
        return MustWait(entries[name]);
      }
      if name !in backends {
        return UnknownDb;
      }
      pool := pool[id := Opener(name)];
      entries := entries[name := id];
      r := MustOpen;
    }

    method GetPublish(e: EntryId, got: Option<HandleId>, now: Instant)
      requires e in pool
      modifies this
      ensures Fields() == Publish(old(Fields()), e, got, now)
    {
      pool := pool[e := pool[e].(opening := false)];
      if got.None? {
        pool := pool[e := pool[e].(failed := true, refs := 0)];
        entries := entries - {pool[e].name};
      } else {
        pool := pool[e := pool[e].(db := got, last := now)];
      }
    }

    method GetAwake(name: DbName, e: EntryId, now: Instant) returns (r: AwakeResult)
      requires e in pool
      modifies this
      ensures (Fields(), r) == Awake(old(Fields()), name, e, now)
    {
      if name !in entries || entries[name] != e {
        return Retry;
      }
      if pool[e].failed {
        return OpenFailed;
      }
      if pool[e].reserved {
        return IsReserved;
      }
      pool := pool[e := pool[e].(refs := pool[e].refs + 1, last := now)];
      r := Granted(pool[e].db);
    }

    method ReleaseRef(e: EntryId, now: Instant)
      requires e in pool
      modifies this
      ensures Fields() == Unref(old(Fields()), e, now)
    {
      pool := pool[e := pool[e].(refs := pool[e].refs - 1, last := now)];
    }

    method DetachIdleLocked(name: DbName) returns (r: DetachResult)
      requires Fields().Linked()
      modifies this
      ensures (Fields(), r) == DetachIdle(old(Fields()), name)
    {
      if name !in entries {
        return Detached(None);
      }
      var x := pool[entries[name]];
      if x.opening || x.refs > 0 || x.reserved {
        return Refused;
      }
      entries := entries - {name};
      r := Detached(x.db);
    }

    method ReserveName(name: DbName, id: EntryId) returns (r: ClaimResult)
      requires Fields().Linked() && id !in pool
      modifies this
      ensures (Fields(), r) == Reserve(old(Fields()), name, id)
    {
      if name !in backends {
        return NoSuchDb;
      }
      var d := DetachIdleLocked(name);
      if d.Refused? {
        return Busy;
      }
      pool := pool[id := Placeholder(name)];
      entries := entries[name := id];
      r := Claimed(d.db);
    }

    method ReleaseReservation(name: DbName)
      modifies this
      ensures Fields() == Unreserve(old(Fields()), name)
    {
      entries := entries - {name};
    }

    method AddName(name: DbName) returns (ok: bool)
      modifies this
      ensures (Fields(), ok) == Add(old(Fields()), name)
    {
      if name in backends {
        return false;
      }
      backends := backends + {name};
      ok := true;
    }

    method RemoveName(name: DbName) returns (r: ClaimResult)
      requires Fields().Linked()
      modifies this
      ensures (Fields(), r) == Remove(old(Fields()), name)
    {
      if name !in backends {
        return NoSuchDb;
      }
      var d := DetachIdleLocked(name);
      if d.Refused? {
        return Busy;
      }
      backends := backends - {name};
      r := Claimed(d.db);
    }

    /** The sweep of `ReapIdle`, visiting the entries in arbitrary order and deleting
        from the map while it iterates. `toClose[i]` is the handle of `names[i]`. */
    method ReapIdle(ttl: int, now: Instant) returns (toClose: seq<HandleId>, ghost names: seq<DbName>)
      requires Fields().Linked()
      modifies this
      ensures Fields() == Reap(old(Fields()), ttl, now)
      ensures Enumerates(names, IdleNames(old(Fields()), ttl, now))
      ensures HandlesAre(old(Fields()), names, toClose)
    {
      toClose, names := [], [];
      ghost var was := Fields();
      if ttl <= 0 {
        assert entries - {} == entries;
        return;
      }
      var todo := entries.Keys;
      while todo != {}
        invariant todo <= was.entries.Keys
        invariant Enumerates(names, IdleNames(was, ttl, now) - todo)
        invariant entries == was.entries - (IdleNames(was, ttl, now) - todo)
        invariant pool == was.pool && backends == was.backends
        invariant HandlesAre(was, names, toClose)
      {
        var name :| name in todo;
        assert entries[name] == was.entries[name];
        ghost var left := todo;
        todo := todo - {name};
        var x := pool[entries[name]];
        if x.opening || x.refs > 0 || x.reserved || x.db.None? || now - x.last < ttl {
          assert IdleNames(was, ttl, now) - todo == IdleNames(was, ttl, now) - left;
          continue;
        }
        assert IdleNames(was, ttl, now) - todo == IdleNames(was, ttl, now) - left + {name};
        entries := entries - {name};
        toClose := toClose + [x.db.value];
        names := names + [name];
      }
      assert IdleNames(was, ttl, now) - todo == IdleNames(was, ttl, now);
    }
  }
}
