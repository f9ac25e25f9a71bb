/** Every interleaving of stream requests, the reaper, kills and sweeps over the
    session store (session/session.go, driven by httpapi/hrana.go and
    httpapi/hrana_cursor.go). */
module SessionRuns {
  import opened Basics
  import opened Sessions

  type RequestId = nat

  datatype World = World(
    st: Fields,
    opens: map<RequestId, DbName>,        // Open calls holding a slot, connection not yet admitted
    requests: map<RequestId, SessionId>,  // requests in flight on a session
    used: set<SessionId>,                 // identifiers ever drawn
    spent: set<(SessionId, nat)>,         // batons that resumed a session
    torn: map<SessionId, Session>)        // sessions handed to a teardown goroutine

  datatype Event =
    | OpenStart(r: RequestId, db: DbName)
    | OpenFail(r: RequestId)
    | OpenOk(r: RequestId, id: SessionId, principal: string, handle: nat, release: nat, now: Instant)
    | ResumeReq(r: RequestId, id: SessionId, gen: nat, db: DbName, principal: string, now: Instant)
    | FinishReq(r: RequestId, now: Instant)
    | CloseReq(r: RequestId)
    | KillReq(id: SessionId)
    | ReapAll(now: Instant, order: seq<SessionId>)
    | CloseAll(order: seq<SessionId>)

  ghost function Start(ttl: int, maxLife: int, max: int): (w: World)
    ensures Inv(w)
  {
    World(NewFields(ttl, maxLife, max), map[], map[], {}, {}, map[])
  }

  ghost predicate Enabled(w: World, ev: Event) {
    match ev
    case OpenStart(r, _) => r !in w.opens && r !in w.requests
    case OpenFail(r) => r in w.opens
    case OpenOk(r, id, _, _, _, _) => r in w.opens && id !in w.used
    case ResumeReq(r, _, _, _, _, _) => r !in w.opens && r !in w.requests
    case FinishReq(r, _) => r in w.requests
    case CloseReq(r) => r in w.requests
    case KillReq(_) => true
    case ReapAll(now, order) => Enumerates(order, Lapsed(w.st, now))
    case CloseAll(order) => Enumerates(order, Idle(w.st))
  }

  /** The listed sessions go to teardown. */
  function TearDown(w: World, st: Fields, ids: set<SessionId>): World {
    w.(st := st, torn := w.torn + (map id | id in ids && id in w.st.sessions :: w.st.sessions[id]))
  }

  ghost function AfterResume(w: World, r: RequestId, id: SessionId, gen: nat, db: DbName, principal: string,
                             now: Instant): World
  {
    var (st, res) := Resume(w.st, id, gen, db, principal, now);
    if res.Resumed? then w.(st := st, requests := w.requests[r := id], spent := w.spent + {(id, gen)})
    else TearDown(w, st, w.st.sessions.Keys - st.sessions.Keys)
  }

  ghost function Listed(order: seq<SessionId>): set<SessionId> {
    set id | id in order
  }

  ghost function Apply(w: World, ev: Event): World
    requires Inv(w) && Enabled(w, ev)
  {
    match ev
    case OpenStart(r, db) =>
      var (st, ok) := ReserveSlot(w.st, db);
      if ok then w.(st := st, opens := w.opens[r := db]) else w
    case OpenFail(r) =>
      w.(st := ReleaseSlot(w.st, w.opens[r]), opens := w.opens - {r})
    case OpenOk(r, id, principal, handle, release, now) =>
      w.(st := Admit(w.st, id, w.opens[r], principal, handle, release, now), opens := w.opens - {r},
         requests := w.requests[r := id], used := w.used + {id})
    case ResumeReq(r, id, gen, db, principal, now) => AfterResume(w, r, id, gen, db, principal, now)
    case FinishReq(r, now) =>
      w.(st := Finish(w.st, w.requests[r], now), requests := w.requests - {r})
    case CloseReq(r) =>
      TearDown(w, CloseLocked(w.st, w.requests[r]).0, {w.requests[r]}).(requests := w.requests - {r})
    case KillReq(id) =>
      var st := Kill(w.st, id).0;
      TearDown(w, st, w.st.sessions.Keys - st.sessions.Keys)
    case ReapAll(now, order) => TearDown(w, CloseEach(w.st, order), Listed(order))
    case CloseAll(order) => TearDown(w, CloseEach(w.st, order), Listed(order))
  }

  // ---- The invariant ----

  ghost function DbOf(sessions: map<SessionId, Session>): map<SessionId, DbName> {
    map id | id in sessions :: sessions[id].db
  }

  /** The per-database counter is exact: live sessions plus Opens in progress. */
  ghost predicate SlotsOk(st: Fields, opens: map<RequestId, DbName>) {
    forall db :: st.Slots(db) == Count(DbOf(st.sessions), db) + Count(opens, db) <= st.max
  }

  /** A busy session has exactly one request in flight, and that request's session
      is live. */
  ghost predicate RequestsOk(sessions: map<SessionId, Session>, requests: map<RequestId, SessionId>) {
    && (forall r <- requests :: requests[r] in sessions && sessions[requests[r]].busy)
    && (forall r <- requests, q <- requests :: requests[r] == requests[q] ==> r == q)
    && (forall id <- sessions :: sessions[id].busy ==> exists r <- requests :: requests[r] == id)
  }

  ghost predicate HistoryOk(sessions: map<SessionId, Session>, used: set<SessionId>,
                            spent: set<(SessionId, nat)>, torn: map<SessionId, Session>)
  {
    && (forall id <- sessions :: id in used && id !in torn)
    && (forall id <- used :: id in sessions || id in torn)
    && (forall id <- torn :: id in used)
    && (forall b <- spent :: b.0 in used && (b.0 in sessions ==> b.1 < sessions[b.0].gen))
  }

  ghost predicate Inv(w: World) {
    && w.st.max > 0
    && w.opens.Keys !! w.requests.Keys
    && SlotsOk(w.st, w.opens)
    && RequestsOk(w.st.sessions, w.requests)
    && HistoryOk(w.st.sessions, w.used, w.spent, w.torn)
  }

  /** Forgetting a live session: the guard on the decrement never suppresses it. */
  lemma CloseSlots(st: Fields, opens: map<RequestId, DbName>, id: SessionId)
    requires SlotsOk(st, opens) && id in st.sessions
    ensures st.Slots(st.sessions[id].db) > 0
    ensures SlotsOk(CloseLocked(st, id).0, opens)
    ensures CloseLocked(st, id).0 == st.(sessions := st.sessions - {id}).AddSlots(st.sessions[id].db, -1)
  {
    var dbs := DbOf(st.sessions);
    var st' := CloseLocked(st, id).0;
    CountPositive(dbs, id);
    forall db ensures st'.Slots(db) == Count(DbOf(st'.sessions), db) + Count(opens, db) <= st'.max {
      CountRemove(dbs, id, db);
      assert DbOf(st'.sessions) == dbs - {id};
    }
  }

  /** Giving a slot back after a failed Open: the guard never suppresses it either,
      so the guarded and the unguarded decrement of the source agree. */
  lemma OpenFailSlots(st: Fields, opens: map<RequestId, DbName>, r: RequestId)
    requires SlotsOk(st, opens) && r in opens
    ensures st.Slots(opens[r]) > 0
    ensures ReleaseSlot(st, opens[r]) == st.AddSlots(opens[r], -1)
    ensures SlotsOk(ReleaseSlot(st, opens[r]), opens - {r})
  {
    var st' := ReleaseSlot(st, opens[r]);
    CountPositive(opens, r);
    forall db ensures st'.Slots(db) == Count(DbOf(st'.sessions), db) + Count(opens - {r}, db) <= st'.max {
      CountRemove(opens, r, db);
    }
  }

  lemma OpenStartSlots(st: Fields, opens: map<RequestId, DbName>, r: RequestId, db: DbName)
    requires SlotsOk(st, opens) && r !in opens && ReserveSlot(st, db).1
    ensures SlotsOk(ReserveSlot(st, db).0, opens[r := db])
  {
    var st' := ReserveSlot(st, db).0;
    forall d ensures st'.Slots(d) == Count(DbOf(st'.sessions), d) + Count(opens[r := db], d) <= st'.max {
      CountInsert(opens, r, db, d);
    }
  }

  /** The slot of an Open becomes the slot of its session. */
  lemma OpenOkSlots(st: Fields, opens: map<RequestId, DbName>, r: RequestId, id: SessionId, s: Session)
    requires SlotsOk(st, opens) && r in opens && id !in st.sessions && s.db == opens[r]
    ensures SlotsOk(st.(sessions := st.sessions[id := s]), opens - {r})
  {
    var st' := st.(sessions := st.sessions[id := s]);
    forall db ensures st'.Slots(db) == Count(DbOf(st'.sessions), db) + Count(opens - {r}, db) <= st'.max {
      CountRemove(opens, r, db);
      CountInsert(DbOf(st.sessions), id, s.db, db);
      assert DbOf(st'.sessions) == DbOf(st.sessions)[id := s.db];
    }
  }

  lemma UpdateSlots(st: Fields, opens: map<RequestId, DbName>, id: SessionId, s: Session)
    requires SlotsOk(st, opens) && id in st.sessions && s.db == st.sessions[id].db
    ensures SlotsOk(st.(sessions := st.sessions[id := s]), opens)
  {
    var st' := st.(sessions := st.sessions[id := s]);
    assert DbOf(st'.sessions) == DbOf(st.sessions);
    forall db ensures st'.Slots(db) == Count(DbOf(st'.sessions), db) + Count(opens, db) <= st'.max {
      assert st'.Slots(db) == st.Slots(db);
    }
  }

  lemma {:induction false} SweepSlots(st: Fields, opens: map<RequestId, DbName>, ids: seq<SessionId>)
    requires SlotsOk(st, opens)
    requires forall i, j :: 0 <= i < j < |ids| ==> ids[i] != ids[j]
    requires forall id <- ids :: id in st.sessions
    ensures SlotsOk(CloseEach(st, ids), opens)
    ensures CloseEach(st, ids).sessions == st.sessions - Listed(ids)
    ensures CloseEach(st, ids).max == st.max
    decreases |ids|
  {
    hide SlotsOk;
    if |ids| > 0 {
      var most := ids[..|ids| - 1];
      var id := ids[|ids| - 1];
      SweepSlots(st, opens, most);
      assert id in ids && id !in most;
      CloseSlots(CloseEach(st, most), opens, id);
      assert Listed(ids) == Listed(most) + {id};
    }
  }

  /** Teardown touches no busy session, so every request keeps its own. */
  lemma TearDownOk(w: World, st: Fields, ids: set<SessionId>)
    requires RequestsOk(w.st.sessions, w.requests) && HistoryOk(w.st.sessions, w.used, w.spent, w.torn)
    requires ids <= w.st.sessions.Keys && st.sessions == w.st.sessions - ids
    requires forall id <- ids :: !w.st.sessions[id].busy
    ensures var v := TearDown(w, st, ids);
            && RequestsOk(v.st.sessions, v.requests) && HistoryOk(v.st.sessions, v.used, v.spent, v.torn)
  {
  }

  lemma SweepKeeps(w: World, ids: seq<SessionId>, all: set<SessionId>)
    requires Inv(w) && Enumerates(ids, all) && all <= Idle(w.st)
    ensures Inv(TearDown(w, CloseEach(w.st, ids), Listed(ids)))
  {
    hide SlotsOk, RequestsOk, HistoryOk;
    SweepSlots(w.st, w.opens, ids);
    TearDownOk(w, CloseEach(w.st, ids), Listed(ids));
  }

  lemma OneClosed(w: World, id: SessionId)
    requires Inv(w) && id in w.st.sessions && !w.st.sessions[id].busy
    ensures var st := CloseLocked(w.st, id).0;
            w.st.sessions.Keys - st.sessions.Keys == {id} && Inv(TearDown(w, st, {id}))
  {
    hide SlotsOk, RequestsOk, HistoryOk;
    CloseSlots(w.st, w.opens, id);
    TearDownOk(w, CloseLocked(w.st, id).0, {id});
  }

  lemma OpenKeeps(w: World, ev: Event)
    requires Inv(w) && Enabled(w, ev) && (ev.OpenStart? || ev.OpenFail?)
    ensures Inv(Apply(w, ev))
  {
    hide SlotsOk, RequestsOk, HistoryOk;
    match ev
    case OpenStart(r, db) =>
      if ReserveSlot(w.st, db).1 { OpenStartSlots(w.st, w.opens, r, db); }
    case OpenFail(r) => OpenFailSlots(w.st, w.opens, r);
  }

  lemma RequestStarts(sessions: map<SessionId, Session>, requests: map<RequestId, SessionId>,
                      r: RequestId, id: SessionId, s: Session)
    requires RequestsOk(sessions, requests) && r !in requests && s.busy
    requires id in sessions ==> !sessions[id].busy
    ensures RequestsOk(sessions[id := s], requests[r := id])
  {
    var after := requests[r := id];
    assert after[r] == id;
    forall x | x in sessions && x != id && sessions[x].busy ensures exists q <- after :: after[q] == x {
      var q :| q in requests && requests[q] == x;
      assert after[q] == x;
    }
  }

  lemma RequestEnds(sessions: map<SessionId, Session>, requests: map<RequestId, SessionId>,
                    r: RequestId, sessions': map<SessionId, Session>)
    requires RequestsOk(sessions, requests) && r in requests
    requires forall id :: id != requests[r] ==>
               (id in sessions' <==> id in sessions) && (id in sessions ==> sessions'[id] == sessions[id])
    requires requests[r] in sessions' ==> !sessions'[requests[r]].busy
    ensures RequestsOk(sessions', requests - {r})
  {
    var after := requests - {r};
    forall x | x in sessions' && sessions'[x].busy ensures exists q <- after :: after[q] == x {
      var q :| q in requests && requests[q] == x;
      assert after[q] == x;
    }
  }

  lemma OpenOkKeeps(w: World, ev: Event)
    requires Inv(w) && Enabled(w, ev) && ev.OpenOk?
    ensures Inv(Apply(w, ev))
  {
    hide SlotsOk, RequestsOk;
    var s := Apply(w, ev).st.sessions[ev.id];
    OpenOkSlots(w.st, w.opens, ev.r, ev.id, s);
    RequestStarts(w.st.sessions, w.requests, ev.r, ev.id, s);
  }

  lemma ResumeKeeps(w: World, ev: Event)
    requires Inv(w) && Enabled(w, ev) && ev.ResumeReq?
    ensures Inv(Apply(w, ev))
  {
    hide SlotsOk, RequestsOk;
    var id := ev.id;
    var (st, res) := Resume(w.st, id, ev.gen, ev.db, ev.principal, ev.now);
    if res.Resumed? {
      UpdateSlots(w.st, w.opens, id, st.sessions[id]);
      RequestStarts(w.st.sessions, w.requests, ev.r, id, st.sessions[id]);
    } else if st != w.st {
      OneClosed(w, id);
    } else {
      assert w.torn + map[] == w.torn;
    }
  }

  lemma RequestLive(w: World, r: RequestId)
    requires RequestsOk(w.st.sessions, w.requests) && r in w.requests
    ensures w.requests[r] in w.st.sessions
  {
  }

  lemma FinishKeeps(w: World, r: RequestId, now: Instant)
    requires Inv(w) && Enabled(w, FinishReq(r, now))
    ensures Inv(Apply(w, FinishReq(r, now)))
  {
    hide SlotsOk, HistoryOk, RequestsOk;
    RequestLive(w, r);
    var id := w.requests[r];
    var v := Apply(w, FinishReq(r, now));
    UpdateSlots(w.st, w.opens, id, v.st.sessions[id]);
    HistoryUpdate(w.st.sessions, w.used, w.spent, w.torn, id, v.st.sessions[id]);
    RequestEnds(w.st.sessions, w.requests, r, v.st.sessions);
  }

  lemma CloseReqKeeps(w: World, r: RequestId)
    requires Inv(w) && Enabled(w, CloseReq(r))
    ensures Inv(Apply(w, CloseReq(r)))
  {
    hide SlotsOk, HistoryOk, RequestsOk;
    RequestLive(w, r);
    var id := w.requests[r];
    CloseSlots(w.st, w.opens, id);
    HistoryClose(w.st.sessions, w.used, w.spent, w.torn, id);
    var v := Apply(w, CloseReq(r));
    assert v.torn == w.torn[id := w.st.sessions[id]];
    RequestEnds(w.st.sessions, w.requests, r, v.st.sessions);
  }

  lemma HistoryUpdate(sessions: map<SessionId, Session>, used: set<SessionId>, spent: set<(SessionId, nat)>,
                      torn: map<SessionId, Session>, id: SessionId, s: Session)
    requires HistoryOk(sessions, used, spent, torn) && id in sessions && s.gen == sessions[id].gen
    ensures HistoryOk(sessions[id := s], used, spent, torn)
  {
  }

  lemma HistoryClose(sessions: map<SessionId, Session>, used: set<SessionId>, spent: set<(SessionId, nat)>,
                     torn: map<SessionId, Session>, id: SessionId)
    requires HistoryOk(sessions, used, spent, torn) && id in sessions
    ensures HistoryOk(sessions - {id}, used, spent, torn[id := sessions[id]])
  {
  }

  lemma KillKeeps(w: World, id: SessionId)
    requires Inv(w)
    ensures Inv(Apply(w, KillReq(id)))
  {
    hide SlotsOk, RequestsOk, HistoryOk;
    if id in w.st.sessions && !w.st.sessions[id].busy {
      OneClosed(w, id);
    } else {
      assert w.torn + map[] == w.torn;
    }
  }

  /** Every step keeps the invariant. */
  lemma StepKeeps(w: World, ev: Event)
    requires Inv(w) && Enabled(w, ev)
    ensures Inv(Apply(w, ev))
  {
    hide SlotsOk, RequestsOk, HistoryOk;
    match ev
    case OpenStart(_, _) => OpenKeeps(w, ev);
    case OpenFail(_) => OpenKeeps(w, ev);
    case OpenOk(_, _, _, _, _, _) => OpenOkKeeps(w, ev);
    case ResumeReq(_, _, _, _, _, _) => ResumeKeeps(w, ev);
    case FinishReq(r, now) => FinishKeeps(w, r, now);
    case CloseReq(r) => CloseReqKeeps(w, r);
    case KillReq(id) => KillKeeps(w, id);
    case ReapAll(now, order) => SweepKeeps(w, order, Lapsed(w.st, now));
    case CloseAll(order) => SweepKeeps(w, order, Idle(w.st));
  }

  lemma TornApart(w: World)
    requires Inv(w)
    ensures w.torn.Keys !! w.st.sessions.Keys && w.st.sessions.Keys <= w.used
  {
    hide SlotsOk, RequestsOk;
  }

  /** No session appears, none changes what it owns, and those that disappear are
      handed to teardown. */
  ghost predicate Framed(sessions: map<SessionId, Session>, torn: map<SessionId, Session>,
                         sessions': map<SessionId, Session>, torn': map<SessionId, Session>)
  {
    && (forall id <- sessions' :: id in sessions &&
          sessions'[id].release == sessions[id].release && sessions'[id].handle == sessions[id].handle)
    && (forall id <- sessions :: id in sessions' || (id in torn' && torn'[id] == sessions[id]))
    && torn'.Keys == torn.Keys + (sessions.Keys - sessions'.Keys)
  }

  lemma TearDownFramed(w: World, st: Fields, ids: set<SessionId>)
    requires ids <= w.st.sessions.Keys && st.sessions == w.st.sessions - ids
    ensures var v := TearDown(w, st, ids); Framed(w.st.sessions, w.torn, v.st.sessions, v.torn)
  {
  }

  lemma ResumeFramed(w: World, r: RequestId, id: SessionId, gen: nat, db: DbName, principal: string, now: Instant)
    ensures var v := AfterResume(w, r, id, gen, db, principal, now);
            Framed(w.st.sessions, w.torn, v.st.sessions, v.torn)
  {
    var (st, res) := Resume(w.st, id, gen, db, principal, now);
    if !res.Resumed? {
      hide Framed;
      TearDownFramed(w, st, w.st.sessions.Keys - st.sessions.Keys);
    }
  }

  lemma PlainFramed(w: World, ev: Event)
    requires Inv(w) && Enabled(w, ev) && (ev.OpenStart? || ev.OpenFail? || ev.FinishReq?)
    ensures Framed(w.st.sessions, w.torn, Apply(w, ev).st.sessions, Apply(w, ev).torn)
  {
    hide SlotsOk, HistoryOk;
  }

  /** Every step but the end of `Open` is framed. */
  lemma SessionsFramed(w: World, ev: Event)
    requires Inv(w) && Enabled(w, ev) && !ev.OpenOk?
    ensures Framed(w.st.sessions, w.torn, Apply(w, ev).st.sessions, Apply(w, ev).torn)
  {
    hide SlotsOk, HistoryOk, Framed, AfterResume;
    match ev
    case ResumeReq(r, id, gen, db, principal, now) => ResumeFramed(w, r, id, gen, db, principal, now);
    case CloseReq(r) =>
      assert w.requests[r] in w.st.sessions;
      TearDownFramed(w, CloseLocked(w.st, w.requests[r]).0, {w.requests[r]});
    case KillReq(id) =>
      var st := Kill(w.st, id).0;
      TearDownFramed(w, st, w.st.sessions.Keys - st.sessions.Keys);
    case ReapAll(_, order) =>
      SweepSlots(w.st, w.opens, order);
      TearDownFramed(w, CloseEach(w.st, order), Listed(order));
    case CloseAll(order) =>
      SweepSlots(w.st, w.opens, order);
      TearDownFramed(w, CloseEach(w.st, order), Listed(order));
    case _ => PlainFramed(w, ev);
  }

  lemma OpensFixed(w: World, ev: Event)
    requires Inv(w) && Enabled(w, ev) && !ev.OpenStart? && !ev.OpenFail? && !ev.OpenOk?
    ensures Apply(w, ev).opens == w.opens
  {
    hide SlotsOk, HistoryOk;
  }

  // ---- Runs ----

  ghost function Next(w: World, ev: Event): (v: World)
    requires Inv(w) && Enabled(w, ev)
    ensures Inv(v)
  {
    StepKeeps(w, ev); Apply(w, ev)
  }

  ghost predicate Legal(w: World, evs: seq<Event>)
    requires Inv(w)
    decreases |evs|
  {
    |evs| == 0 ||
    (Enabled(w, evs[0]) && Legal(Next(w, evs[0]), evs[1..]))
  }

  ghost function Run(w: World, evs: seq<Event>): (r: World)
    requires Inv(w) && Legal(w, evs)
    ensures Inv(r)
    decreases |evs|
  {
    if |evs| == 0 then w else Run(Next(w, evs[0]), evs[1..])
  }

  /** The capacity law, in every run: the counter is live sessions plus Opens in
      progress and never passes the cap. */
  lemma CounterExact(ttl: int, maxLife: int, max: int, evs: seq<Event>, db: DbName)
    requires Legal(Start(ttl, maxLife, max), evs)
    ensures var w := Run(Start(ttl, maxLife, max), evs);
            && w.st.Slots(db) == Count(DbOf(w.st.sessions), db) + Count(w.opens, db) <= w.st.max
            && w.st.max == (if max <= 0 then 64 else max)
  {
    hide RequestsOk, HistoryOk;
    SettingsFixed(Start(ttl, maxLife, max), evs);
    assert SlotsOk(Run(Start(ttl, maxLife, max), evs).st, Run(Start(ttl, maxLife, max), evs).opens);
  }

  lemma {:induction false} CloseEachSettings(st: Fields, ids: seq<SessionId>)
    ensures var v := CloseEach(st, ids); v.max == st.max && v.ttl == st.ttl && v.maxLife == st.maxLife
  {
    if |ids| > 0 {
      CloseEachSettings(st, ids[..|ids| - 1]);
    }
  }

  lemma {:induction false} SettingsFixed(w: World, evs: seq<Event>)
    requires Inv(w) && Legal(w, evs)
    ensures var v := Run(w, evs).st; v.max == w.st.max && v.ttl == w.st.ttl && v.maxLife == w.st.maxLife
    decreases |evs|
  {
    hide SlotsOk, RequestsOk, HistoryOk;
    if |evs| > 0 {
      SettingsStep(w, evs[0]);
      SettingsFixed(Next(w, evs[0]), evs[1..]);
    }
  }

  lemma SettingsStep(w: World, ev: Event)
    requires Inv(w) && Enabled(w, ev)
    ensures var v := Apply(w, ev).st; v.max == w.st.max && v.ttl == w.st.ttl && v.maxLife == w.st.maxLife
  {
    hide SlotsOk, HistoryOk;
    if ev.ReapAll? || ev.CloseAll? {
      CloseEachSettings(w.st, ev.order);
    }
  }

  ghost predicate Resumes(w: World, ev: Event, id: SessionId, gen: nat)
    requires Inv(w) && Enabled(w, ev)
  {
    && ev.ResumeReq? && ev.id == id && ev.gen == gen
    && Resume(w.st, id, gen, ev.db, ev.principal, ev.now).1.Resumed?
  }

  ghost predicate NeverResumes(w: World, evs: seq<Event>, id: SessionId, gen: nat)
    requires Inv(w) && Legal(w, evs)
    decreases |evs|
  {
    |evs| == 0 ||
    (!Resumes(w, evs[0], id, gen) && NeverResumes(Next(w, evs[0]), evs[1..], id, gen))
  }

  /** A baton is linear: once it has resumed its session, no later request, from
      anybody, resumes with it again. */
  lemma BatonSpentOnce(w: World, ev: Event, id: SessionId, gen: nat, evs: seq<Event>)
    requires Inv(w) && Enabled(w, ev) && Resumes(w, ev, id, gen)
    requires Legal(Next(w, ev), evs)
    ensures NeverResumes(Next(w, ev), evs, id, gen)
  {
    hide SlotsOk, RequestsOk, HistoryOk;
    SpentStays(Next(w, ev), evs, id, gen);
  }

  lemma {:induction false} SpentStays(w: World, evs: seq<Event>, id: SessionId, gen: nat)
    requires Inv(w) && Legal(w, evs) && (id, gen) in w.spent
    ensures NeverResumes(w, evs, id, gen)
    decreases |evs|
  {
    hide SlotsOk, RequestsOk;
    if |evs| > 0 {
      hide HistoryOk;
      SpentStays(Next(w, evs[0]), evs[1..], id, gen);
    }
  }

  /** At most one request is in flight per session, and it has one exactly while busy. */
  lemma OneInFlight(w: World, id: SessionId)
    requires Inv(w) && id in w.st.sessions
    ensures Count(w.requests, id) == (if w.st.sessions[id].busy then 1 else 0)
  {
    hide SlotsOk, HistoryOk;
    if w.st.sessions[id].busy {
      var r :| r in w.requests && w.requests[r] == id;
      assert KeysWith(w.requests, id) == {r};
    } else {
      assert KeysWith(w.requests, id) == {};
    }
  }

  /** While a request is in flight nothing but the end of that very request touches
      its session: not the reaper, not Kill, not CloseAll, not another baton. The
      baton peeked at its start is therefore the one current at its end. */
  lemma {:induction false} BusyUntouched(w: World, evs: seq<Event>, r: RequestId)
    requires Inv(w) && Legal(w, evs) && r in w.requests
    requires forall ev <- evs :: !((ev.FinishReq? || ev.CloseReq?) && ev.r == r)
    ensures var v := Run(w, evs); var id := w.requests[r];
            r in v.requests && v.requests[r] == id && id in v.st.sessions && v.st.sessions[id] == w.st.sessions[id]
    decreases |evs|
  {
    hide SlotsOk, HistoryOk;
    if |evs| > 0 {
      assert evs[0] in evs;
      BusyStep(w, evs[0], r);
      hide RequestsOk;
      BusyUntouched(Next(w, evs[0]), evs[1..], r);
    }
  }

  lemma BusyStep(w: World, ev: Event, r: RequestId)
    requires Inv(w) && Enabled(w, ev) && r in w.requests
    requires !((ev.FinishReq? || ev.CloseReq?) && ev.r == r)
    ensures var v := Apply(w, ev); var id := w.requests[r];
            r in v.requests && v.requests[r] == id && id in v.st.sessions && v.st.sessions[id] == w.st.sessions[id]
  {
    hide SlotsOk, HistoryOk, AfterResume;
    if ev.ReapAll? || ev.CloseAll? {
      BusySweep(w, ev, r);
    } else if ev.ResumeReq? {
      BusyResume(w, ev.r, ev.id, ev.gen, ev.db, ev.principal, ev.now, w.requests[r]);
    } else {
      hide RequestsOk, Apply;
      BusyOther(w, ev, r);
    }
  }

  lemma BusySweep(w: World, ev: Event, r: RequestId)
    requires Inv(w) && Enabled(w, ev) && r in w.requests && (ev.ReapAll? || ev.CloseAll?)
    ensures var v := Apply(w, ev); var id := w.requests[r];
            r in v.requests && v.requests[r] == id && id in v.st.sessions && v.st.sessions[id] == w.st.sessions[id]
  {
    hide SlotsOk, HistoryOk;
    SweepSlots(w.st, w.opens, ev.order);
  }

  lemma BusyOther(w: World, ev: Event, r: RequestId)
    requires Inv(w) && Enabled(w, ev) && r in w.requests && !ev.ReapAll? && !ev.CloseAll? && !ev.ResumeReq?
    requires !((ev.FinishReq? || ev.CloseReq?) && ev.r == r)
    ensures var v := Apply(w, ev); var id := w.requests[r];
            r in v.requests && v.requests[r] == id && id in v.st.sessions && v.st.sessions[id] == w.st.sessions[id]
  {
    hide SlotsOk, AfterResume;
    assert w.requests[r] in w.st.sessions && w.requests[r] in w.used;
    hide HistoryOk;
  }

  lemma BusyResume(w: World, r: RequestId, id: SessionId, gen: nat, db: DbName, principal: string, now: Instant,
                   x: SessionId)
    requires x in w.st.sessions && w.st.sessions[x].busy && r !in w.requests
    ensures var v := AfterResume(w, r, id, gen, db, principal, now);
            && x in v.st.sessions && v.st.sessions[x] == w.st.sessions[x]
            && (v.requests == w.requests || v.requests == w.requests[r := id])
  {
  }

  /** The baton peeked during request `r` is the one handed back when it ends, whatever
      happens in between; until then it is refused with nothing changed, and from then
      on it resumes the session unless that has lapsed. */
  lemma PeekedBaton(w: World, evs: seq<Event>, r: RequestId, at: Instant, now: Instant)
    requires Inv(w) && Legal(w, evs) && r in w.requests && w.requests[r] in w.st.sessions
    requires forall ev <- evs :: !((ev.FinishReq? || ev.CloseReq?) && ev.r == r)
    ensures var id := w.requests[r]; var s := w.st.sessions[id]; var v := Run(w, evs);
            && id in v.st.sessions && Finish(v.st, id, at).sessions[id].gen == s.gen
            && Resume(v.st, id, s.gen, s.db, s.principal, now) == (v.st, BadBaton)
            && Enabled(v, FinishReq(r, at))
            && var u := Next(v, FinishReq(r, at));
               id in u.st.sessions && (!u.st.Reapable(u.st.sessions[id], now) ==>
                                         Resume(u.st, id, s.gen, s.db, s.principal, now).1.Resumed?)
  {
    BusyUntouched(w, evs, r);
    hide SlotsOk, HistoryOk, Run, Legal;
  }

  /** A resume for the wrong database or by the wrong principal burns nothing: unless
      the session had lapsed anyway, the whole state is as before. */
  lemma WrongResumeHarmless(w: World, ev: Event)
    requires Inv(w) && Enabled(w, ev) && ev.ResumeReq?
    requires ev.id in w.st.sessions
    requires ev.db != w.st.sessions[ev.id].db || ev.principal != w.st.sessions[ev.id].principal
    ensures !Resumes(w, ev, ev.id, ev.gen)
    ensures !w.st.Reapable(w.st.sessions[ev.id], ev.now) ==> Apply(w, ev) == w
  {
  }

  /** What a client that threads the last baton relies on. */
  ghost predicate Threads(w: World, id: SessionId, gen: nat, db: DbName, principal: string) {
    id in w.used &&
    (id in w.st.sessions ==>
       var s := w.st.sessions[id]; s.gen == gen && !s.busy && s.db == db && s.principal == principal)
  }

  lemma {:induction false} ThreadKept(w: World, evs: seq<Event>, id: SessionId, gen: nat, db: DbName, principal: string)
    requires Inv(w) && Legal(w, evs) && Threads(w, id, gen, db, principal)
    requires NeverResumes(w, evs, id, gen)
    ensures Threads(Run(w, evs), id, gen, db, principal)
    decreases |evs|
  {
    hide SlotsOk, RequestsOk, HistoryOk;
    if |evs| > 0 {
      ThreadStep(w, evs[0], id, gen, db, principal);
      ThreadKept(Next(w, evs[0]), evs[1..], id, gen, db, principal);
    }
  }

  lemma ThreadStep(w: World, ev: Event, id: SessionId, gen: nat, db: DbName, principal: string)
    requires Inv(w) && Enabled(w, ev) && Threads(w, id, gen, db, principal) && !Resumes(w, ev, id, gen)
    ensures Threads(Apply(w, ev), id, gen, db, principal)
  {
    hide SlotsOk, HistoryOk, AfterResume;
    if ev.ReapAll? || ev.CloseAll? {
      SweepSlots(w.st, w.opens, ev.order);
    } else if ev.ResumeReq? {
      ThreadResume(w, ev, id, gen, db, principal);
    }
  }

  lemma ThreadResume(w: World, ev: Event, id: SessionId, gen: nat, db: DbName, principal: string)
    requires Inv(w) && Enabled(w, ev) && Threads(w, id, gen, db, principal) && !Resumes(w, ev, id, gen) && ev.ResumeReq?
    ensures Threads(AfterResume(w, ev.r, ev.id, ev.gen, ev.db, ev.principal, ev.now), id, gen, db, principal)
  {
    hide SlotsOk, HistoryOk, RequestsOk;
  }

  /** A serial client: it received the baton at the end of its request `r`; after any
      run in which nobody else used that baton it is refused only if its session was
      torn down (reaped, killed or closed) or has lapsed at this very moment. */
  lemma SerialClient(w: World, r: RequestId, at: Instant, evs: seq<Event>, now: Instant)
    requires Inv(w) && r in w.requests
    requires Legal(Next(w, FinishReq(r, at)), evs)
    requires NeverResumes(Next(w, FinishReq(r, at)), evs, w.requests[r], w.st.sessions[w.requests[r]].gen)
    ensures var v := Run(Next(w, FinishReq(r, at)), evs);
            var id := w.requests[r]; var s := w.st.sessions[id];
            || Resume(v.st, id, s.gen, s.db, s.principal, now).1.Resumed?
            || id in v.torn
            || (id in v.st.sessions && v.st.Reapable(v.st.sessions[id], now))
  {
    var w1 := Next(w, FinishReq(r, at));
    var id := w.requests[r];
    var s := w.st.sessions[id];
    ThreadKept(w1, evs, id, s.gen, s.db, s.principal);
  }
}
