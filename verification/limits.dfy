/** Admission control (limits/limits.go): a token bucket per principal and a cap on
    requests in flight per database. Time is in seconds, and the arithmetic is exact. */
module Limits {
  import opened Basics

  type Principal = string

  datatype Bucket = Bucket(tokens: real, last: real)

  datatype Limiter = Limiter(
    rps: real,
    burst: real,
    perDBMax: int,
    buckets: map<Principal, Bucket>,
    inflight: map<DbName, int>)
  {
    function InFlight(db: DbName): int {
      if db in inflight then inflight[db] else 0
    }
  }

  datatype Admission = Admitted | RateExceeded | DbBusy

  function New(rps: real, perDBMax: int): Limiter {
    Limiter(rps, if rps < 1.0 then 1.0 else rps, perDBMax, map[], map[])
  }

  /** Tokens that drip in over `dt` seconds. */
  function Refill(dt: real, rps: real): real {
    dt * rps
  }

  lemma Refills(a: real, b: real, rps: real)
    requires rps > 0.0
    ensures Refill(0.0, rps) == 0.0
    ensures a <= b ==> Refill(a, rps) <= Refill(b, rps)
    ensures Refill(a + b, rps) == Refill(a, rps) + Refill(b, rps)
  {
  }

  /** What the bucket of `p` holds at time `now`, after refilling. */
  function Level(l: Limiter, p: Principal, now: real): real {
    if p !in l.buckets then l.burst
    else
      var full := l.buckets[p].tokens + Refill(now - l.buckets[p].last, l.rps);
      if full > l.burst then l.burst else full
  }

  function TakeToken(l: Limiter, p: Principal, now: real): (Limiter, bool) {
    if l.rps <= 0.0 then (l, true)
    else
      var level := Level(l, p, now);
      if level < 1.0 then (l.(buckets := l.buckets[p := Bucket(level, now)]), false)
      else (l.(buckets := l.buckets[p := Bucket(level - 1.0, now)]), true)
  }

  function Allow(l: Limiter, p: Principal, db: DbName, now: real): (Limiter, Admission) {
    var (l1, ok) := TakeToken(l, p, now);
    if !ok then (l1, RateExceeded)
    else if l.perDBMax > 0 && l.InFlight(db) >= l.perDBMax then (l1, DbBusy)  // the token stays spent
    else (l1.(inflight := l1.inflight[db := l.InFlight(db) + 1]), Admitted)
  }

  function Release(l: Limiter, db: DbName): Limiter {
    if l.InFlight(db) > 0 then l.(inflight := l.inflight[db := l.InFlight(db) - 1]) else l
  }

  class LimiterObject {
    const rps: real
    const burst: real
    const perDBMax: int
    var buckets: map<Principal, Bucket>
    var inflight: map<DbName, int>

    ghost function Fields(): Limiter
      reads this
    {
      Limiter(rps, burst, perDBMax, buckets, inflight)
    }

    constructor (rps: real, perDBMax: int)
      ensures Fields() == New(rps, perDBMax)
    {
      this.rps := rps;
      burst := if rps < 1.0 then 1.0 else rps;
      this.perDBMax := perDBMax;
      buckets, inflight := map[], map[];
    }

    method TakeOne(p: Principal, now: real) returns (ok: bool)
      modifies this`buckets
      ensures (Fields(), ok) == TakeToken(old(Fields()), p, now)
    {
      if rps <= 0.0 {
        return true;
      }
      var b := if p in buckets then buckets[p] else Bucket(burst, now);
      assert Refill(0.0, rps) == 0.0;
      b := b.(tokens := b.tokens + Refill(now - b.last, rps));
      if b.tokens > burst {
        b := b.(tokens := burst);
      }
      b := b.(last := now);
      ok := b.tokens >= 1.0;
      if ok {
        b := b.(tokens := b.tokens - 1.0);
      }
      buckets := buckets[p := b];
    }

    method Admit(p: Principal, db: DbName, now: real) returns (r: Admission)
      modifies this
      ensures (Fields(), r) == Allow(old(Fields()), p, db, now)
    {
      var ok := TakeOne(p, now);
      if !ok {
        return RateExceeded;
      }
      var n := if db in inflight then inflight[db] else 0;
      if perDBMax > 0 && n >= perDBMax {
        return DbBusy;
      }
      inflight := inflight[db := n + 1];
      r := Admitted;
    }

    method Done(db: DbName)
      modifies this
      ensures Fields() == Release(old(Fields()), db)
    {
      if db in inflight && inflight[db] > 0 {
        inflight := inflight[db := inflight[db] - 1];
      }
    }
  }

  // ---- Runs: requests arriving and leaving ----

  type RequestId = nat

  datatype World = World(l: Limiter, held: map<RequestId, DbName>)

  datatype Event = Arrive(id: RequestId, p: Principal, db: DbName, now: real) | Leave(id: RequestId)

  /** A second call of a release function does nothing. */
  function Apply(w: World, ev: Event): World {
    match ev
    case Arrive(id, p, db, now) =>
      var (l, r) := Allow(w.l, p, db, now);
      if r.Admitted? then World(l, w.held[id := db]) else w.(l := l)
    case Leave(id) =>
      if id in w.held then World(Release(w.l, w.held[id]), w.held - {id}) else w
  }

  function Start(rps: real, perDBMax: int): World {
    World(New(rps, perDBMax), map[])
  }

  /** Requests are told apart by their ids. */
  ghost predicate Legal(w: World, evs: seq<Event>)
    decreases |evs|
  {
    |evs| == 0 || ((evs[0].Arrive? ==> evs[0].id !in w.held) && Legal(Apply(w, evs[0]), evs[1..]))
  }

  function Run(w: World, evs: seq<Event>): World
    decreases |evs|
  {
    if |evs| == 0 then w else Run(Apply(w, evs[0]), evs[1..])
  }

  // ---- Rate: every window of every run ----

  /** How many arrivals of `p` pass the token bucket. */
  function Passes(w: World, evs: seq<Event>, p: Principal): nat
    decreases |evs|
  {
    if |evs| == 0 then 0
    else
      var ev := evs[0];
      (if ev.Arrive? && ev.p == p && TakeToken(w.l, p, ev.now).1 then 1 else 0) + Passes(Apply(w, ev), evs[1..], p)
  }

  /** The arrivals come in time order, within [t0, t1]. */
  ghost predicate Within(evs: seq<Event>, t0: real, t1: real) {
    && t0 <= t1
    && (forall i :: 0 <= i < |evs| && evs[i].Arrive? ==> t0 <= evs[i].now <= t1)
    && (forall i, j :: 0 <= i < j < |evs| && evs[i].Arrive? && evs[j].Arrive? ==> evs[i].now <= evs[j].now)
  }

  ghost predicate BucketsOk(l: Limiter, t: real) {
    && l.rps > 0.0 && l.burst >= 1.0
    && (forall p <- l.buckets :: 0.0 <= l.buckets[p].tokens <= l.burst && l.buckets[p].last <= t)
  }

  /** Waiting refills at the configured rate, up to the burst. */
  lemma LevelGrows(l: Limiter, p: Principal, t0: real, t: real)
    requires BucketsOk(l, t0) && t0 <= t
    ensures 0.0 <= Level(l, p, t) <= l.burst
    ensures var filled := Level(l, p, t0) + Refill(t - t0, l.rps);
            Level(l, p, t) == if filled < l.burst then filled else l.burst
  {
    hide Refill;
    Refills(0.0, t - t0, l.rps);
    if p in l.buckets {
      var b := l.buckets[p];
      Refills(0.0, t0 - b.last, l.rps);
      Refills(t0 - b.last, t - t0, l.rps);
      Refills(0.0, t - b.last, l.rps);
    }
  }

  /** A pass costs its principal one token and nobody else anything; a release costs
      nothing. `t` is the time of the step. */
  lemma StepLevel(w: World, ev: Event, p: Principal, t0: real, t: real)
    requires BucketsOk(w.l, t0) && t0 <= t && (ev.Arrive? ==> ev.now == t)
    ensures var l := Apply(w, ev).l;
            && l.rps == w.l.rps && l.burst == w.l.burst && BucketsOk(l, t)
            && Level(l, p, t) == Level(w.l, p, t)
                                 - (if ev.Arrive? && ev.p == p && TakeToken(w.l, p, ev.now).1 then 1.0 else 0.0)
  {
    hide Refill;
    Refills(0.0, 0.0, w.l.rps);
    LevelGrows(w.l, p, t0, t);
    if ev.Arrive? {
      LevelGrows(w.l, ev.p, t0, t);
    }
  }

  lemma {:induction false} WindowFrom(w: World, evs: seq<Event>, p: Principal, t0: real, t1: real)
    requires BucketsOk(w.l, t0) && Within(evs, t0, t1)
    ensures Passes(w, evs, p) as real <= Level(w.l, p, t0) + Refill(t1 - t0, w.l.rps)
    decreases |evs|
  {
    hide Refill;
    LevelGrows(w.l, p, t0, t0);
    if |evs| == 0 {
      Refills(0.0, t1 - t0, w.l.rps);
    } else {
      var t := if evs[0].Arrive? then evs[0].now else t0;
      LevelGrows(w.l, p, t0, t);
      StepLevel(w, evs[0], p, t0, t);
      hide Apply;
      WindowFrom(Apply(w, evs[0]), evs[1..], p, t, t1);
      Refills(t - t0, t1 - t, w.l.rps);
    }
  }

  lemma {:induction false} RunKeeps(w: World, evs: seq<Event>, t0: real, t1: real)
    requires BucketsOk(w.l, t0) && Within(evs, t0, t1)
    ensures var l := Run(w, evs).l; BucketsOk(l, t1) && l.rps == w.l.rps && l.burst == w.l.burst
    decreases |evs|
  {
    if |evs| > 0 {
      var t := if evs[0].Arrive? then evs[0].now else t0;
      StepLevel(w, evs[0], "", t0, t);
      hide Apply, Level, Refill;
      RunKeeps(Apply(w, evs[0]), evs[1..], t, t1);
    }
  }

  /** Whatever came before, in any time window a principal passes the bucket at most
      burst + rps * length times, with burst = max(1, rps). */
  lemma WindowBound(rps: real, perDBMax: int, before: seq<Event>, evs: seq<Event>, p: Principal,
                    start: real, t0: real, t1: real)
    requires rps > 0.0 && Within(before, start, t0) && Within(evs, t0, t1)
    ensures var w := Run(Start(rps, perDBMax), before);
            Passes(w, evs, p) as real <= (if rps < 1.0 then 1.0 else rps) + Refill(t1 - t0, rps)
  {
    hide Refill;
    RunKeeps(Start(rps, perDBMax), before, start, t0);
    var w := Run(Start(rps, perDBMax), before);
    WindowFrom(w, evs, p, t0, t1);
    LevelGrows(w.l, p, t0, t0);
  }

  // ---- Service: who is never refused ----

  /** When `p` last arrived. */
  function LastArrival(evs: seq<Event>, p: Principal): Option<real> {
    if |evs| == 0 then None
    else
      var ev := evs[|evs| - 1];
      if ev.Arrive? && ev.p == p then Some(ev.now) else LastArrival(evs[..|evs| - 1], p)
  }

  lemma {:induction false} RunLast(w: World, evs: seq<Event>)
    requires |evs| > 0
    ensures Run(w, evs) == Apply(Run(w, evs[..|evs| - 1]), evs[|evs| - 1])
    decreases |evs|
  {
    hide Apply;
    if |evs| > 1 {
      RunLast(Apply(w, evs[0]), evs[1..]);
      assert evs[1..][..|evs| - 2] == evs[..|evs| - 1][1..];
    } else {
      assert evs[1..] == [] && evs[..0] == [];
    }
  }

  /** A bucket is stamped with its principal's last arrival, and there is none before the
      first. */
  lemma {:induction false} StampedLast(rps: real, perDBMax: int, evs: seq<Event>, p: Principal)
    requires rps > 0.0
    ensures var l := Run(Start(rps, perDBMax), evs).l;
            && l.rps == rps
            && (p in l.buckets <==> LastArrival(evs, p).Some?)
            && (p in l.buckets ==> l.buckets[p].last == LastArrival(evs, p).value)
    decreases |evs|
  {
    if |evs| > 0 {
      RunLast(Start(rps, perDBMax), evs);
      StampedLast(rps, perDBMax, evs[..|evs| - 1], p);
      hide Run, Refill;
    }
  }

  /** A principal that keeps to the rate is never refused for it: after any history, a
      request that comes at least 1/rps after its last, or is its first, passes. */
  lemma SpacedServed(rps: real, perDBMax: int, before: seq<Event>, p: Principal, start: real, t0: real, now: real)
    requires rps > 0.0 && Within(before, start, t0) && t0 <= now
    requires LastArrival(before, p).Some? ==> (now - LastArrival(before, p).value) * rps >= 1.0
    ensures TakeToken(Run(Start(rps, perDBMax), before).l, p, now).1
  {
    StampedLast(rps, perDBMax, before, p);
    RunKeeps(Start(rps, perDBMax), before, start, t0);
    hide Run;
    var l := Run(Start(rps, perDBMax), before).l;
    if p in l.buckets {
      assert Refill(now - l.buckets[p].last, rps) >= 1.0;
    }
    hide Refill;
    WholeToken(l, p, now);
  }

  lemma WholeToken(l: Limiter, p: Principal, now: real)
    requires l.rps > 0.0 && l.burst >= 1.0
    requires p in l.buckets ==> l.buckets[p].tokens >= 0.0 && Refill(now - l.buckets[p].last, l.rps) >= 1.0
    ensures TakeToken(l, p, now).1
  {
    hide Refill;
  }

  /** A new principal may send its whole burst, max(1, rps) requests, at once. */
  lemma BurstServed(rps: real, perDBMax: int, before: seq<Event>, evs: seq<Event>, p: Principal,
                    start: real, t0: real, now: real)
    requires rps > 0.0 && Within(before, start, t0) && t0 <= now && LastArrival(before, p).None?
    requires |evs| as real <= (if rps < 1.0 then 1.0 else rps)
    requires forall ev <- evs :: ev.Arrive? && ev.p == p && ev.now == now
    ensures Passes(Run(Start(rps, perDBMax), before), evs, p) == |evs|
  {
    StampedLast(rps, perDBMax, before, p);
    RunKeeps(Start(rps, perDBMax), before, start, t0);
    hide Run;
    AllPass(Run(Start(rps, perDBMax), before), evs, p, now);
  }

  lemma {:induction false} AllPass(w: World, evs: seq<Event>, p: Principal, now: real)
    requires BucketsOk(w.l, now) && |evs| as real <= Level(w.l, p, now)
    requires forall ev <- evs :: ev.Arrive? && ev.p == p && ev.now == now
    ensures Passes(w, evs, p) == |evs|
    decreases |evs|
  {
    if |evs| > 0 {
      assert evs[0] in evs && forall ev <- evs[1..] :: ev in evs;
      StepLevel(w, evs[0], p, now, now);
      assert TakeToken(w.l, p, now).1;
      hide Apply, Level;
      AllPass(Apply(w, evs[0]), evs[1..], p, now);
    }
  }

  // ---- Concurrency: admitted and not yet released ----

  ghost predicate Counted(w: World) {
    forall db :: w.l.InFlight(db) == Count(w.held, db) && (w.l.perDBMax > 0 ==> w.l.InFlight(db) <= w.l.perDBMax)
  }

  lemma CountedStep(w: World, ev: Event)
    requires Counted(w) && (ev.Arrive? ==> ev.id !in w.held)
    ensures Counted(Apply(w, ev))
    ensures ev.Leave? && ev.id in w.held ==> w.l.InFlight(w.held[ev.id]) > 0  // the guard never suppresses
  {
    var v := Apply(w, ev);
    if ev.Leave? && ev.id in w.held {
      CountPositive(w.held, ev.id);
      assert w.l.InFlight(w.held[ev.id]) == Count(w.held, w.held[ev.id]);
    }
    forall db ensures v.l.InFlight(db) == Count(v.held, db) && (v.l.perDBMax > 0 ==> v.l.InFlight(db) <= v.l.perDBMax) {
      assert w.l.InFlight(db) == Count(w.held, db);
      if ev.Arrive? {
        CountInsert(w.held, ev.id, ev.db, db);
      } else if ev.id in w.held {
        CountRemove(w.held, ev.id, db);
      }
    }
  }

  lemma {:induction false} CountedRun(w: World, evs: seq<Event>)
    requires Counted(w) && Legal(w, evs)
    ensures Counted(Run(w, evs)) && Run(w, evs).l.perDBMax == w.l.perDBMax
    decreases |evs|
  {
    if |evs| > 0 {
      CountedStep(w, evs[0]);
      CountedRun(Apply(w, evs[0]), evs[1..]);
    }
  }

  /** In every run the in-flight count of every database is the number of admitted
      requests not yet released, and never passes the cap. */
  lemma InFlightExact(rps: real, perDBMax: int, evs: seq<Event>, db: DbName)
    requires Legal(Start(rps, perDBMax), evs)
    ensures var w := Run(Start(rps, perDBMax), evs);
            && w.l.InFlight(db) == Count(w.held, db)
            && (perDBMax > 0 ==> w.l.InFlight(db) <= perDBMax)
  {
    CountedRun(Start(rps, perDBMax), evs);
    assert Counted(Run(Start(rps, perDBMax), evs));
  }

  /** Every answer to a request, from who is being served: over the rate exactly if rates
      are limited and its bucket holds less than a token, otherwise busy exactly if the
      database has a cap and that many requests in flight, otherwise admitted and held. */
  lemma AdmitAnswers(w: World, id: RequestId, p: Principal, db: DbName, now: real)
    requires Counted(w) && id !in w.held
    ensures Allow(w.l, p, db, now).1 ==
              (if w.l.rps > 0.0 && Level(w.l, p, now) < 1.0 then RateExceeded
               else if w.l.perDBMax > 0 && Count(w.held, db) >= w.l.perDBMax then DbBusy
               else Admitted)
    ensures Apply(w, Arrive(id, p, db, now)).held ==
              if Allow(w.l, p, db, now).1 == Admitted then w.held[id := db] else w.held
  {
    hide Level;
    assert w.l.InFlight(db) == Count(w.held, db);
  }
}
