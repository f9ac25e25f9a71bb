/** The store of interactive streams (session/session.go): sessions addressed by a
    rotating baton, a per-database cap, and teardown.

    As for the registry, each critical section is a function on the store's fields
    (`Fields`), and the class `Store` performs it in place. */
module Sessions {
  import opened Basics

  datatype SessionId = SessionId(raw: seq<int>)

  /** A session: its pinned connection points into the registry handle `handle`, and
      it owns the registry reference `release`. */
  datatype Session = Session(
    gen: nat,
    db: DbName,
    principal: string,
    handle: nat,
    release: nat,
    created: Instant,
    lastUsed: Instant,
    busy: bool)

  datatype Fields = Fields(
    sessions: map<SessionId, Session>,
    perDB: map<DbName, int>,
    ttl: int,
    maxLife: int,
    max: int)
  {
    /** Reading a Go map: an absent key counts zero. */
    function Slots(db: DbName): int {
      if db in perDB then perDB[db] else 0
    }

    function AddSlots(db: DbName, n: int): Fields {
      this.(perDB := perDB[db := Slots(db) + n])
    }

    predicate Reapable(s: Session, now: Instant) {
      !s.busy && (now - s.lastUsed > ttl || now - s.created > maxLife)
    }
  }

  datatype ResumeResult = BadBaton | PrincipalMismatch | Resumed
  datatype KillResult = KillNotFound | KillBusy | Killed

  const DEFAULT_MAX := 64
  const DEFAULT_TTL := 60_000_000_000
  const DEFAULT_MAX_LIFE := 300_000_000_000

  function NewFields(ttl: int, maxLife: int, max: int): Fields {
    Fields(map[], map[],
           if ttl <= 0 then DEFAULT_TTL else ttl,
           if maxLife <= 0 then DEFAULT_MAX_LIFE else maxLife,
           if max <= 0 then DEFAULT_MAX else max)
  }

  // ---- Critical sections ----

  function ReserveSlot(st: Fields, db: DbName): (Fields, bool) {
    if st.Slots(db) >= st.max then (st, false) else (st.AddSlots(db, 1), true)
  }

  function ReleaseSlot(st: Fields, db: DbName): Fields {
    if st.Slots(db) > 0 then st.AddSlots(db, -1) else st
  }

  /** The last section of `Open`, `id` being the random identifier. */
  function Admit(st: Fields, id: SessionId, db: DbName, principal: string, handle: nat, release: nat,
                 now: Instant): Fields
  {
    st.(sessions := st.sessions[id := Session(1, db, principal, handle, release, now, now, true)])
  }

  /** `closeLocked`: forget the session; the second component is what the teardown
      goroutine is given. */
  function CloseLocked(st: Fields, id: SessionId): (Fields, Option<Session>) {
    if id !in st.sessions then (st, None)
    else
      var s := st.sessions[id];
      (ReleaseSlot(st.(sessions := st.sessions - {id}), s.db), Some(s))
  }

  /** Sessions closed one after the other, in the order given. */
  function CloseEach(st: Fields, ids: seq<SessionId>): Fields {
    if |ids| == 0 then st
    else CloseLocked(CloseEach(st, ids[..|ids| - 1]), ids[|ids| - 1]).0
  }

  function Resume(st: Fields, id: SessionId, gen: nat, db: DbName, principal: string, now: Instant): (Fields,
                  ResumeResult)
  {
    if id !in st.sessions || st.sessions[id].gen != gen || st.sessions[id].busy then (st, BadBaton)
    else
      var s := st.sessions[id];
      if st.Reapable(s, now) then (CloseLocked(st, id).0, BadBaton)
      else if s.db != db then (st, BadBaton)
      else if s.principal != principal then (st, PrincipalMismatch)
      else (st.(sessions := st.sessions[id := s.(gen := s.gen + 1, busy := true, lastUsed := now)]), Resumed)
  }

  /** `Baton`: the request on `id` is over. */
  function Finish(st: Fields, id: SessionId, now: Instant): Fields
    requires id in st.sessions
  {
    st.(sessions := st.sessions[id := st.sessions[id].(busy := false, lastUsed := now)])
  }

  function Kill(st: Fields, id: SessionId): (Fields, KillResult) {
    if id !in st.sessions then (st, KillNotFound)
    else if st.sessions[id].busy then (st, KillBusy)
    else (CloseLocked(st, id).0, Killed)
  }

  function Idle(st: Fields): set<SessionId> {
    set id | id in st.sessions && !st.sessions[id].busy
  }

  function Lapsed(st: Fields, now: Instant): set<SessionId> {
    set id | id in st.sessions && st.Reapable(st.sessions[id], now)
  }

  // ---- The store object ----

  class Store {
    var sessions: map<SessionId, Session>
    var perDB: map<DbName, int>
    const ttl: int
    const maxLife: int
    const max: int

    ghost function State(): Fields
      reads this
    {
      Fields(sessions, perDB, ttl, maxLife, max)
    }

    constructor (ttl: int, maxLife: int, max: int)
      ensures State() == NewFields(ttl, maxLife, max)
    {
      sessions, perDB := map[], map[];
      this.max := if max <= 0 then DEFAULT_MAX else max;
      this.ttl := if ttl <= 0 then DEFAULT_TTL else ttl;
      this.maxLife := if maxLife <= 0 then DEFAULT_MAX_LIFE else maxLife;
    }

    method Bump(db: DbName, n: int)
      modifies this
      ensures State() == old(State()).AddSlots(db, n)
    {
      perDB := perDB[db := (if db in perDB then perDB[db] else 0) + n];
    }

    method OpenReserve(db: DbName) returns (ok: bool)
      modifies this
      ensures (State(), ok) == ReserveSlot(old(State()), db)
    {
      if (if db in perDB then perDB[db] else 0) >= max {
        return false;
      }
      Bump(db, 1);
      ok := true;
    }

    method FreeSlot(db: DbName)
      modifies this
      ensures State() == ReleaseSlot(old(State()), db)
    {
      if db in perDB && perDB[db] > 0 {
        Bump(db, -1);
      }
    }

    method OpenAdmit(id: SessionId, db: DbName, principal: string, handle: nat, release: nat, now: Instant)
      modifies this
      ensures State() == Admit(old(State()), id, db, principal, handle, release, now)
    {
      var s := Session(1, db, principal, handle, release, now, now, true);
      sessions := sessions[id := s];
    }

    method CloseSession(id: SessionId) returns (torn: Option<Session>)
      modifies this
      ensures (State(), torn) == CloseLocked(old(State()), id)
    {
      if id !in sessions {
        return None;
      }
      var s := sessions[id];
      sessions := sessions - {id};
      FreeSlot(s.db);
      torn := Some(s);
    }

    method ResumeBaton(id: SessionId, gen: nat, db: DbName, principal: string, now: Instant) returns (r: ResumeResult)
      modifies this
      ensures (State(), r) == Resume(old(State()), id, gen, db, principal, now)
    {
      if id !in sessions || sessions[id].gen != gen {
        return BadBaton;
      }
      if sessions[id].busy {
        return BadBaton;
      }
      if now - sessions[id].lastUsed > ttl || now - sessions[id].created > maxLife {
        var _ := CloseSession(id);
        return BadBaton;
      }
      if sessions[id].db != db {
        return BadBaton;
      }
      if sessions[id].principal != principal {
        return PrincipalMismatch;
      }
      var s := sessions[id];
      sessions := sessions[id := s.(gen := s.gen + 1, busy := true, lastUsed := now)];
      r := Resumed;
    }

    /** The baton handed back names the session and its current generation. */
    method Baton(id: SessionId, now: Instant) returns (gen: nat)
      requires id in sessions
      modifies this
      ensures State() == Finish(old(State()), id, now)
      ensures gen == sessions[id].gen == old(sessions[id].gen)
    {
      sessions := sessions[id := sessions[id].(busy := false, lastUsed := now)];
      gen := sessions[id].gen;
    }

    /** The baton shown in advance is the one `Baton` hands back, whenever that is. */
    method PeekBaton(id: SessionId) returns (gen: nat)
      requires id in sessions
      ensures forall now: Instant :: gen == Finish(State(), id, now).sessions[id].gen
    {
      gen := sessions[id].gen;
    }

    method KillSession(id: SessionId) returns (r: KillResult)
      modifies this
      ensures (State(), r) == Kill(old(State()), id)
    {
      if id !in sessions {
        return KillNotFound;
      }
      if sessions[id].busy {
        return KillBusy;
      }
      var _ := CloseSession(id);
      r := Killed;
    }

    /** The sweeps of `reap` (`now` given) and `CloseAll` (`now` absent) visit the map
        in arbitrary order; `order` records the sessions they closed. */
    method Sweep(now: Option<Instant>) returns (ghost order: seq<SessionId>)
      modifies this
      ensures State() == CloseEach(old(State()), order)
      ensures Enumerates(order, if now.Some? then Lapsed(old(State()), now.value) else Idle(old(State())))
      ensures forall id :: id in order <==>
                && id in old(sessions) && !old(sessions)[id].busy
                && (now.Some? ==>
                      now.value > old(sessions)[id].lastUsed + ttl || now.value > old(sessions)[id].created + maxLife)
    {
      ghost var was := State();
      ghost var victims := if now.Some? then Lapsed(was, now.value) else Idle(was);
      order := [];
      var todo := sessions.Keys;
      while todo != {}
        invariant todo <= was.sessions.Keys
        invariant State() == CloseEach(was, order)
        invariant forall id <- todo :: id in sessions && sessions[id] == was.sessions[id]
        invariant Enumerates(order, victims - todo)
      {
        var id :| id in todo;
        ghost var left := todo;
        todo := todo - {id};
        var s := sessions[id];
        if !s.busy && (now.None? || now.value - s.lastUsed > ttl || now.value - s.created > maxLife) {
          assert victims - todo == victims - left + {id};
          var _ := CloseSession(id);
          ghost var longer := order + [id];
          assert longer[..|longer| - 1] == order;
          order := longer;
        } else {
          assert victims - todo == victims - left;
        }
      }
      assert victims - todo == victims;
    }
  }
}
