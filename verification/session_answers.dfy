/** What the session store answers, with its limits written out: who may resume, until
    when, and which sessions a sweep takes (session/session.go). */
module SessionAnswers {
  import opened Basics
  import opened Sessions
  import opened SessionRuns

  /** Within both limits: used no longer ago than `ttl`, opened no longer ago than
      `maxLife`. */
  predicate Prompt(st: Fields, s: Session, now: Instant) {
    now <= s.lastUsed + st.ttl && now <= s.created + st.maxLife
  }

  /** The right baton, presented to an idle session. */
  predicate Current(st: Fields, id: SessionId, gen: nat) {
    id in st.sessions && st.sessions[id].gen == gen && !st.sessions[id].busy
  }

  /** Every answer to a baton. A session that is late is closed, whoever asks; otherwise a
      wrong database or principal is refused with nothing changed, and the right ones
      resume it: busy, at the next generation, used just now. */
  lemma ResumeAnswers(st: Fields, id: SessionId, gen: nat, db: DbName, principal: string, now: Instant)
    ensures var (v, r) := Resume(st, id, gen, db, principal, now);
            if !Current(st, id, gen) then r == BadBaton && v == st
            else
              var s := st.sessions[id];
              if !Prompt(st, s, now) then r == BadBaton && v.sessions == st.sessions - {id}
              else if s.db != db then r == BadBaton && v == st
              else if s.principal != principal then r == PrincipalMismatch && v == st
              else
                && r == Resumed
                && v == st.(sessions := st.sessions[id := s.(gen := gen + 1, busy := true, lastUsed := now)])
  {
  }

  /** A baton resumes its session if and only if it is current, prompt, and presented for
      the session's own database by its own principal. */
  lemma ResumedExact(st: Fields, id: SessionId, gen: nat, db: DbName, principal: string, now: Instant)
    ensures Resume(st, id, gen, db, principal, now).1.Resumed? <==>
              && Current(st, id, gen) && st.sessions[id].db == db && st.sessions[id].principal == principal
              && now <= st.sessions[id].lastUsed + st.ttl && now <= st.sessions[id].created + st.maxLife
  {
    ResumeAnswers(st, id, gen, db, principal, now);
  }

  /** An open gets a slot if and only if live sessions and other opens leave one. */
  lemma OpenAnswers(w: World, r: RequestId, db: DbName)
    requires Inv(w) && Enabled(w, OpenStart(r, db))
    ensures r in Apply(w, OpenStart(r, db)).opens <==> Count(DbOf(w.st.sessions), db) + Count(w.opens, db) < w.st.max
    ensures r !in Apply(w, OpenStart(r, db)).opens ==> Apply(w, OpenStart(r, db)) == w
  {
    hide RequestsOk, HistoryOk;
    assert w.st.Slots(db) == Count(DbOf(w.st.sessions), db) + Count(w.opens, db);
  }

  /** A kill takes an idle session, spares a busy one and reports an unknown one. */
  lemma KillAnswers(w: World, id: SessionId)
    requires Inv(w)
    ensures var (v, r) := Kill(w.st, id);
            if id !in w.st.sessions then r == KillNotFound && v == w.st
            else if exists q <- w.requests :: w.requests[q] == id then r == KillBusy && v == w.st
            else r == Killed && v.sessions == w.st.sessions - {id}
  {
    hide SlotsOk, HistoryOk;
  }

  // ---- Who a session belongs to ----

  /** If the session is live, it is as it was opened. */
  ghost predicate BornAs(w: World, id: SessionId, db: DbName, principal: string, at: Instant) {
    id in w.used &&
    (id in w.st.sessions ==>
       var s := w.st.sessions[id]; s.db == db && s.principal == principal && s.created == at)
  }

  lemma Opened(w: World, r: RequestId, id: SessionId, principal: string, h: nat, g: nat, now: Instant)
    requires Inv(w) && Enabled(w, OpenOk(r, id, principal, h, g, now))
    ensures var v := Apply(w, OpenOk(r, id, principal, h, g, now));
            && BornAs(v, id, w.opens[r], principal, now)
            && id in v.st.sessions && r in v.requests && v.requests[r] == id
  {
    hide SlotsOk, RequestsOk, HistoryOk;
  }

  lemma BornStep(w: World, ev: Event, id: SessionId, db: DbName, principal: string, at: Instant)
    requires Inv(w) && Enabled(w, ev) && BornAs(w, id, db, principal, at)
    ensures BornAs(Apply(w, ev), id, db, principal, at)
  {
    hide SlotsOk, HistoryOk, AfterResume;
    match ev
    case ReapAll(_, order) => SweepSlots(w.st, w.opens, order);
    case CloseAll(order) => SweepSlots(w.st, w.opens, order);
    case ResumeReq(r, x, gen, d, p, now) => BornResume(w, r, x, gen, d, p, now, id, db, principal, at);
    case _ =>
  }

  lemma BornResume(w: World, r: RequestId, x: SessionId, gen: nat, d: DbName, p: string, now: Instant,
                   id: SessionId, db: DbName, principal: string, at: Instant)
    requires BornAs(w, id, db, principal, at)
    ensures BornAs(AfterResume(w, r, x, gen, d, p, now), id, db, principal, at)
  {
    ResumeAnswers(w.st, x, gen, d, p, now);
    hide Resume;
  }

  /** Nobody but `principal`, and for no database but `db`, resumes the session. */
  ghost predicate OnlyFor(w: World, evs: seq<Event>, id: SessionId, db: DbName, principal: string)
    requires Inv(w) && Legal(w, evs)
    decreases |evs|
  {
    |evs| == 0 ||
    (var ev := evs[0];
     && (ev.ResumeReq? && Resumes(w, ev, id, ev.gen) ==> ev.db == db && ev.principal == principal)
     && OnlyFor(Next(w, ev), evs[1..], id, db, principal))
  }

  /** A session is bound for life to the database and the principal it was opened for:
      over every run, every baton of it resumes for those two alone. */
  lemma BoundToOwner(w: World, r: RequestId, id: SessionId, principal: string, h: nat, g: nat, now: Instant,
                     evs: seq<Event>)
    requires Inv(w) && Enabled(w, OpenOk(r, id, principal, h, g, now))
    requires Legal(Next(w, OpenOk(r, id, principal, h, g, now)), evs)
    ensures OnlyFor(Next(w, OpenOk(r, id, principal, h, g, now)), evs, id, w.opens[r], principal)
  {
    hide SlotsOk, RequestsOk, HistoryOk;
    Opened(w, r, id, principal, h, g, now);
    BoundFrom(Next(w, OpenOk(r, id, principal, h, g, now)), evs, id, w.opens[r], principal, now);
  }

  lemma {:induction false} BoundFrom(w: World, evs: seq<Event>, id: SessionId, db: DbName, principal: string,
                                           at: Instant)
    requires Inv(w) && Legal(w, evs) && BornAs(w, id, db, principal, at)
    ensures OnlyFor(w, evs, id, db, principal)
    decreases |evs|
  {
    hide Inv, Apply;
    if |evs| > 0 {
      var ev := evs[0];
      if ev.ResumeReq? {
        ResumedExact(w.st, id, ev.gen, ev.db, ev.principal, ev.now);
      }
      hide Resume;
      BornStep(w, ev, id, db, principal, at);
      BoundFrom(Next(w, ev), evs[1..], id, db, principal, at);
    }
  }

  // ---- How long a session is kept ----

  /** A session that is live, idle and exactly `s`. */
  ghost predicate Parked(w: World, id: SessionId, s: Session) {
    id in w.st.sessions && w.st.sessions[id] == s && !s.busy
  }

  /** The step neither kills the session, nor closes all, nor comes too late for it. */
  predicate Sparing(ev: Event, id: SessionId, until: Instant) {
    match ev
    case KillReq(x) => x != id
    case CloseAll(_) => false
    case ReapAll(now, _) => now <= until
    case ResumeReq(_, x, _, _, _, now) => x == id ==> now <= until
    case _ => true
  }

  lemma ParkedStep(w: World, ev: Event, id: SessionId, s: Session, until: Instant)
    requires Inv(w) && Enabled(w, ev) && Parked(w, id, s) && Sparing(ev, id, until)
    requires until <= s.lastUsed + w.st.ttl && until <= s.created + w.st.maxLife && !Resumes(w, ev, id, s.gen)
    ensures Parked(Apply(w, ev), id, s)
  {
    hide SlotsOk, RequestsOk, HistoryOk, AfterResume, Parked;
    match ev
    case ReapAll(now, order) => ParkedSweep(w, now, order, id, s, until);
    case ResumeReq(r, x, gen, d, p, now) => ParkedResume(w, r, x, gen, d, p, now, id, s, until);
    case _ =>
      hide Apply;
      ParkedOther(w, ev, id, s);
  }

  lemma ParkedSweep(w: World, now: Instant, order: seq<SessionId>, id: SessionId, s: Session, until: Instant)
    requires Inv(w) && Enabled(w, ReapAll(now, order)) && Parked(w, id, s) && now <= until
    requires until <= s.lastUsed + w.st.ttl && until <= s.created + w.st.maxLife
    ensures Parked(Apply(w, ReapAll(now, order)), id, s)
  {
    hide SlotsOk, RequestsOk, HistoryOk;
    SweepSlots(w.st, w.opens, order);
  }

  lemma ParkedOther(w: World, ev: Event, id: SessionId, s: Session)
    requires Inv(w) && Enabled(w, ev) && Parked(w, id, s)
    requires !ev.ReapAll? && !ev.CloseAll? && !ev.ResumeReq? && ev != KillReq(id)
    ensures Parked(Apply(w, ev), id, s)
  {
    hide SlotsOk;
    assert id in w.used;
    hide HistoryOk;
    if ev.FinishReq? || ev.CloseReq? {
      assert w.requests[ev.r] in w.st.sessions && w.requests[ev.r] != id;
    }
    hide RequestsOk;
  }

  lemma ParkedResume(w: World, r: RequestId, x: SessionId, gen: nat, d: DbName, p: string, now: Instant,
                     id: SessionId, s: Session, until: Instant)
    requires Parked(w, id, s) && (x == id ==> now <= until)
    requires until <= s.lastUsed + w.st.ttl && until <= s.created + w.st.maxLife
    requires x == id && gen == s.gen ==> !Resume(w.st, x, gen, d, p, now).1.Resumed?
    ensures Parked(AfterResume(w, r, x, gen, d, p, now), id, s)
  {
    ResumeAnswers(w.st, x, gen, d, p, now);
    hide Resume;
  }

  lemma {:induction false} ParkedRun(w: World, evs: seq<Event>, id: SessionId, s: Session, until: Instant)
    requires Inv(w) && Legal(w, evs) && Parked(w, id, s) && NeverResumes(w, evs, id, s.gen)
    requires until <= s.lastUsed + w.st.ttl && until <= s.created + w.st.maxLife
    requires forall ev <- evs :: Sparing(ev, id, until)
    ensures Parked(Run(w, evs), id, s)
    decreases |evs|
  {
    hide Inv, Apply, Parked, Resumes;
    if |evs| > 0 {
      assert evs[0] in evs && forall ev <- evs[1..] :: ev in evs;
      ParkedStep(w, evs[0], id, s, until);
      SettingsStep(w, evs[0]);
      ParkedRun(Next(w, evs[0]), evs[1..], id, s, until);
    }
  }

  /** A prompt client is always served: if its last request ended at `at` and it presents
      the baton it was handed back within `ttl` of that and within `maxLife` of the open,
      and nobody killed the session or closed all of them, the session resumes, however
      often the reaper has run meanwhile. */
  lemma PromptClient(w: World, r: RequestId, at: Instant, evs: seq<Event>, now: Instant)
    requires Inv(w) && r in w.requests && w.requests[r] in w.st.sessions && Legal(Next(w, FinishReq(r, at)), evs)
    requires NeverResumes(Next(w, FinishReq(r, at)), evs, w.requests[r], w.st.sessions[w.requests[r]].gen)
    requires now <= at + w.st.ttl && now <= w.st.sessions[w.requests[r]].created + w.st.maxLife
    requires forall ev <- evs :: Sparing(ev, w.requests[r], now)
    ensures var id := w.requests[r]; var s := w.st.sessions[id];
            Resume(Run(Next(w, FinishReq(r, at)), evs).st, id, s.gen, s.db, s.principal, now).1.Resumed?
  {
    hide SlotsOk, RequestsOk, HistoryOk;
    var id := w.requests[r];
    var s := w.st.sessions[id].(busy := false, lastUsed := at);
    var w1 := Next(w, FinishReq(r, at));
    assert Parked(w1, id, s) && w1.st.ttl == w.st.ttl && w1.st.maxLife == w.st.maxLife;
    hide Inv, Apply;
    ParkedRun(w1, evs, id, s, now);
    SettingsFixed(w1, evs);
    ResumedExact(Run(w1, evs).st, id, s.gen, s.db, s.principal, now);
  }

  /** A sweep takes exactly the idle sessions that are no longer prompt. */
  lemma ReapExact(w: World, now: Instant, order: seq<SessionId>, id: SessionId)
    requires Inv(w) && Enabled(w, ReapAll(now, order)) && id in w.st.sessions
    ensures var s := w.st.sessions[id];
            id !in Apply(w, ReapAll(now, order)).st.sessions <==>
              !s.busy && (now > s.lastUsed + w.st.ttl || now > s.created + w.st.maxLife)
  {
    hide RequestsOk, HistoryOk;
    SweepSlots(w.st, w.opens, order);
    hide SlotsOk;
  }

  /** The limits in force, from the settings a store is made with. */
  lemma Limits(ttl: int, maxLife: int, max: int, evs: seq<Event>)
    requires Legal(Start(ttl, maxLife, max), evs)
    ensures var st := Run(Start(ttl, maxLife, max), evs).st;
            && st.ttl == (if ttl <= 0 then 60_000_000_000 else ttl)
            && st.maxLife == (if maxLife <= 0 then 300_000_000_000 else maxLife)
            && st.max == (if max <= 0 then 64 else max)
  {
    SettingsFixed(Start(ttl, maxLife, max), evs);
  }
}
