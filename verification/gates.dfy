/** Per-principal provisioning gates (enroll/enroll.go, `lockGate`): a mutex per name
    in a map that keeps only the gates in use. */
module Gates {
  import opened Basics

  datatype Principal = Principal(text: string)

  type GateId = nat
  type ThreadId = nat

  datatype Gate = Gate(name: Principal, refs: int, holder: Option<ThreadId>)

  datatype Table = Table(gates: map<Principal, GateId>, pool: map<GateId, Gate>)

  /** First half of `lockGate`: find or make the gate and count this user in; `id` is
      the identity of a newly allocated gate. */
  function Join(tb: Table, name: Principal, id: GateId): (Table, GateId)
    requires name in tb.gates ==> tb.gates[name] in tb.pool
  {
    if name in tb.gates then
      var g := tb.gates[name];
      (tb.(pool := tb.pool[g := tb.pool[g].(refs := tb.pool[g].refs + 1)]), g)
    else
      (Table(tb.gates[name := id], tb.pool[id := Gate(name, 1, None)]), id)
  }

  /** Last half of the unlock function: count the user out, dropping an unused gate. */
  function Quit(tb: Table, g: GateId): Table
    requires g in tb.pool
  {
    var x := tb.pool[g].(refs := tb.pool[g].refs - 1);
    Table(if x.refs == 0 then tb.gates - {x.name} else tb.gates, tb.pool[g := x])
  }

  function SetHolder(tb: Table, g: GateId, h: Option<ThreadId>): Table
    requires g in tb.pool
  {
    tb.(pool := tb.pool[g := tb.pool[g].(holder := h)])
  }

  class GateTable {
    var gates: map<Principal, GateId>
    var pool: map<GateId, Gate>

    ghost function Contents(): Table
      reads this
    {
      Table(gates, pool)
    }

    constructor ()
      ensures Contents() == Table(map[], map[])
    {
      gates, pool := map[], map[];
    }

    method Enter(name: Principal, id: GateId) returns (g: GateId)
      requires (name in gates ==> gates[name] in pool) && id !in pool
      modifies this
      ensures (Contents(), g) == Join(old(Contents()), name, id)
    {
      if name in gates {
        g := gates[name];
      } else {
        g := id;
        pool := pool[g := Gate(name, 0, None)];
        gates := gates[name := g];
      }
      pool := pool[g := pool[g].(refs := pool[g].refs + 1)];
      assert name !in old(gates) ==> pool == old(pool)[g := Gate(name, 1, None)];
    }

    method Exit(g: GateId)
      requires g in pool
      modifies this
      ensures Contents() == Quit(old(Contents()), g)
    {
      pool := pool[g := pool[g].(refs := pool[g].refs - 1)];
      if pool[g].refs == 0 {
        gates := gates - {pool[g].name};
      }
    }
  }

  // ---- All users ----

  datatype World = World(tb: Table, seats: map<ThreadId, GateId>)

  datatype Event =
    | Arrive(t: ThreadId, name: Principal, id: GateId)
    | Lock(t: ThreadId)
    | Unlock(t: ThreadId)
    | Depart(t: ThreadId)

  ghost predicate Holding(w: World, t: ThreadId) {
    t in w.seats && w.seats[t] in w.tb.pool && w.tb.pool[w.seats[t]].holder == Some(t)
  }

  ghost predicate Enabled(w: World, ev: Event) {
    match ev
    case Arrive(t, _, id) => t !in w.seats && id !in w.tb.pool
    case Lock(t) => t in w.seats && w.seats[t] in w.tb.pool && w.tb.pool[w.seats[t]].holder.None?
    case Unlock(t) => Holding(w, t)
    case Depart(t) => t in w.seats && !Holding(w, t)
  }

  ghost function Apply(w: World, ev: Event): World
    requires Inv(w) && Enabled(w, ev)
  {
    match ev
    case Arrive(t, name, id) =>
      var (tb, g) := Join(w.tb, name, id);
      World(tb, w.seats[t := g])
    case Lock(t) => w.(tb := SetHolder(w.tb, w.seats[t], Some(t)))
    case Unlock(t) => w.(tb := SetHolder(w.tb, w.seats[t], None))
    case Depart(t) => World(Quit(w.tb, w.seats[t]), w.seats - {t})
  }

  /** Exact counts; the map holds exactly the gates somebody uses; a holder is one of
      the gate's users. */
  ghost predicate Inv(w: World) {
    && (forall n <- w.tb.gates :: w.tb.gates[n] in w.tb.pool && w.tb.pool[w.tb.gates[n]].name == n)
    && (forall t <- w.seats :: w.seats[t] in w.tb.pool)
    && (forall g <- w.tb.pool :: GateOk(w, g))
  }

  ghost predicate GateOk(w: World, g: GateId)
    requires g in w.tb.pool
  {
    var x := w.tb.pool[g];
    && x.refs == Count(w.seats, g)
    && (x.refs > 0 <==> x.name in w.tb.gates && w.tb.gates[x.name] == g)
    && (x.holder.Some? ==> x.holder.value in w.seats && w.seats[x.holder.value] == g)
  }

  ghost function Start(): (w: World)
    ensures Inv(w)
  {
    World(Table(map[], map[]), map[])
  }

  lemma ArriveKeeps(w: World, t: ThreadId, name: Principal, id: GateId)
    requires Inv(w) && Enabled(w, Arrive(t, name, id))
    ensures Inv(Apply(w, Arrive(t, name, id)))
  {
    var v := Apply(w, Arrive(t, name, id));
    var g := v.seats[t];
    if name !in w.tb.gates {
      assert KeysWith(w.seats, id) == {};
    }
    forall x | x in v.tb.pool ensures GateOk(v, x) {
      CountInsert(w.seats, t, g, x);
      if x in w.tb.pool { assert GateOk(w, x); }
    }
  }

  lemma DepartKeeps(w: World, t: ThreadId)
    requires Inv(w) && Enabled(w, Depart(t))
    ensures Inv(Apply(w, Depart(t)))
  {
    var v := Apply(w, Depart(t));
    var g := w.seats[t];
    CountPositive(w.seats, t);
    assert GateOk(w, g);
    forall x | x in v.tb.pool ensures GateOk(v, x) {
      CountRemove(w.seats, t, x);
      assert GateOk(w, x);
    }
  }

  lemma LockKeeps(w: World, ev: Event)
    requires Inv(w) && Enabled(w, ev) && (ev.Lock? || ev.Unlock?)
    ensures Inv(Apply(w, ev))
  {
  }

  lemma StepKeeps(w: World, ev: Event)
    requires Inv(w) && Enabled(w, ev)
    ensures Inv(Apply(w, ev))
  {
    match ev
    case Arrive(t, name, id) => ArriveKeeps(w, t, name, id);
    case Depart(t) => DepartKeeps(w, t);
    case _ => LockKeeps(w, ev);
  }

  /** A step of one thread leaves every other thread's seat, and whether it holds its
      gate, as they were. */
  lemma OthersUndisturbed(w: World, ev: Event, u: ThreadId)
    requires Inv(w) && Enabled(w, ev) && u in w.seats && u != ev.t
    ensures var v := Apply(w, ev);
            && u in v.seats && v.seats[u] == w.seats[u]
            && v.seats[u] in v.tb.pool && v.tb.pool[v.seats[u]].name == w.tb.pool[w.seats[u]].name
            && (Holding(v, u) <==> Holding(w, u))
  {
    assert GateOk(w, w.seats[u]);
  }

  /** What a step does for the thread that takes it. */
  lemma OwnSeat(w: World, ev: Event)
    requires Inv(w) && Enabled(w, ev)
    ensures var v := Apply(w, ev);
            && v.seats.Keys == (if ev.Depart? then w.seats.Keys - {ev.t} else w.seats.Keys + {ev.t})
            && (!ev.Depart? ==>
                  && v.seats[ev.t] in v.tb.pool
                  && v.tb.pool[v.seats[ev.t]].name == (if ev.Arrive? then ev.name else w.tb.pool[w.seats[ev.t]].name)
                  && (Holding(v, ev.t) <==> ev.Lock?))
  {
  }

  /** Mutual exclusion per name: two threads inside gates of the same name are one. */
  lemma OneHolderPerName(w: World, t: ThreadId, u: ThreadId)
    requires Inv(w) && Holding(w, t) && Holding(w, u)
    requires w.tb.pool[w.seats[t]].name == w.tb.pool[w.seats[u]].name
    ensures t == u
  {
    CountPositive(w.seats, t);
    CountPositive(w.seats, u);
    assert GateOk(w, w.seats[t]) && GateOk(w, w.seats[u]);
  }

  /** The map holds a name exactly while some thread uses or awaits its gate. */
  lemma OnlyGatesInUse(w: World, name: Principal)
    requires Inv(w)
    ensures name in w.tb.gates <==> exists t <- w.seats :: w.tb.pool[w.seats[t]].name == name
  {
    if name in w.tb.gates {
      var g := w.tb.gates[name];
      assert GateOk(w, g);
      var t :| t in KeysWith(w.seats, g);
      assert w.tb.pool[w.seats[t]].name == name;
    }
    forall t | t in w.seats ensures w.tb.pool[w.seats[t]].name in w.tb.gates {
      CountPositive(w.seats, t);
      assert GateOk(w, w.seats[t]);
    }
  }
}
