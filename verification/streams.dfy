/** Streams across the registry and the session store (httpapi/hrana.go, `stream`):
    who owns each registry reference, and why no handle is closed under a pinned
    connection. */
module Streams {
  import opened Basics
  import opened Sessions
  import R = RegistryRuns
  import S = SessionRuns

  type StreamId = nat

  /** A stream being opened, after its `Get` succeeded with grant `g` on handle `h`. */
  datatype Stream =
    | Got(g: R.GrantId, h: nat, db: DbName)        // no slot, no connection
    | Slotted(g: R.GrantId, h: nat, db: DbName)    // slot reserved, connection not pinned (or closed again)
    | Pinned(g: R.GrantId, h: nat, db: DbName)     // slot and connection
    | Unslotted(g: R.GrantId, h: nat, db: DbName)  // connection still pinned, slot given back
    | Failed(g: R.GrantId, h: nat, db: DbName)     // about to call release()

  datatype Teardown = Teardown(g: R.GrantId, h: nat, pinned: bool)

  datatype Owner = OfStream(t: StreamId) | OfSession(id: SessionId) | OfTeardown(id: SessionId)
  datatype Claim = Claim(owner: Owner, handle: nat)

  datatype Sys = Sys(
    reg: R.World,
    ses: S.World,
    streams: map<StreamId, Stream>,
    teardowns: map<SessionId, Teardown>,
    claims: map<R.GrantId, Claim>,   // references taken for streams and not yet released
    taken: set<R.GrantId>,           // references ever taken for streams
    calls: multiset<R.GrantId>)      // calls of their release functions

  datatype Event =
    | Registry(ev: R.Event)                                      // any other user of the registry
    | StreamGets(ev: R.Event)                                    // the step of Get that returns a handle to a stream
    | ReserveSlot(t: StreamId)
    | Pin(t: StreamId)
    | Unpin(t: StreamId)
    | Unslot(t: StreamId)
    | Admit(t: StreamId, id: SessionId, principal: string, now: Instant)
    | ReleaseFailed(t: StreamId, now: Instant)
    | Session(sev: S.Event)                                      // resume, end of request, kill, sweeps
    | TeardownUnpin(id: SessionId)
    | TeardownRelease(id: SessionId, now: Instant)

  /** The registry step returns a handle to its caller. */
  ghost predicate Grants(w: R.World, ev: R.Event)
    requires R.Inv(w) && R.Enabled(w, ev)
  {
    (ev.OpenDone? || ev.WakeUp?) && ev.g in R.Apply(w, ev).grants
  }

  ghost predicate Enabled(s: Sys, ev: Event)
    requires R.Inv(s.reg)
  {
    match ev
    case Registry(rev) => R.Enabled(s.reg, rev) && (rev.Release? ==> rev.g !in s.taken)
    case StreamGets(rev) => R.Enabled(s.reg, rev) && Grants(s.reg, rev) && rev.t !in s.streams
    case ReserveSlot(t) => t in s.streams && s.streams[t].Got? && S.Enabled(s.ses, S.OpenStart(t, s.streams[t].db))
    case Pin(t) => t in s.streams && s.streams[t].Slotted?
    case Unpin(t) => t in s.streams && (s.streams[t].Pinned? || s.streams[t].Unslotted?)
    case Unslot(t) => t in s.streams && (s.streams[t].Slotted? || s.streams[t].Pinned?)
    case Admit(t, id, _, _) => t in s.streams && s.streams[t].Pinned? && id !in s.ses.used
    case ReleaseFailed(t, _) => t in s.streams && s.streams[t].Failed?
    case Session(sev) => S.Enabled(s.ses, sev) && !sev.OpenStart? && !sev.OpenFail? && !sev.OpenOk?
    case TeardownUnpin(id) => id in s.teardowns && s.teardowns[id].pinned
    case TeardownRelease(id, _) => id in s.teardowns && !s.teardowns[id].pinned
  }

  // ---- Steps ----

  /** One call of a release function the stream layer owns. */
  ghost function Release(s: Sys, g: R.GrantId, now: Instant): Sys
    requires R.Inv(s.reg) && R.Enabled(s.reg, R.Release(g, now))
  {
    s.(reg := R.Apply(s.reg, R.Release(g, now)), claims := s.claims - {g}, calls := s.calls + multiset{g})
  }

  ghost function Claimed(claims: map<R.GrantId, Claim>, torn: set<SessionId>): map<R.GrantId, Claim> {
    map g | g in claims ::
      if claims[g].owner.OfSession? && claims[g].owner.id in torn
      then Claim(OfTeardown(claims[g].owner.id), claims[g].handle) else claims[g]
  }

  ghost function AfterSession(s: Sys, sev: S.Event): Sys
    requires S.Inv(s.ses) && S.Enabled(s.ses, sev)
  {
    var ses := S.Apply(s.ses, sev);
    var torn := s.ses.st.sessions.Keys - ses.st.sessions.Keys;
    s.(ses := ses,
       teardowns := s.teardowns + TeardownsOf(s.ses.st.sessions, torn),
       claims := Claimed(s.claims, torn))
  }

  ghost function AfterGets(s: Sys, rev: R.Event): Sys
    requires R.Inv(s.reg) && R.Enabled(s.reg, rev) && Grants(s.reg, rev)
  {
    R.StepKeeps(s.reg, rev);
    var reg := R.Apply(s.reg, rev);
    R.GrantedEntry(reg, rev.g);
    var h := R.Held(reg, rev.g).value;
    s.(reg := reg,
       streams := s.streams[rev.t := Got(rev.g, h, reg.core.pool[reg.grants[rev.g]].name)],
       claims := s.claims[rev.g := Claim(OfStream(rev.t), h)],
       taken := s.taken + {rev.g})
  }

  ghost function AfterAdmit(s: Sys, t: StreamId, id: SessionId, principal: string, now: Instant): Sys
    requires t in s.streams && S.Inv(s.ses) && t in s.ses.opens && id !in s.ses.used
  {
    var x := s.streams[t];
    s.(ses := S.Apply(s.ses, S.OpenOk(t, id, principal, x.h, x.g, now)),
       streams := s.streams - {t},
       claims := s.claims[x.g := Claim(OfSession(id), x.h)])
  }

  ghost function AfterSlot(s: Sys, t: StreamId): Sys
    requires S.Inv(s.ses) && t in s.streams && S.Enabled(s.ses, S.OpenStart(t, s.streams[t].db))
  {
    var x := s.streams[t];
    var ses := S.Apply(s.ses, S.OpenStart(t, x.db));
    s.(ses := ses,
       streams := s.streams[t := if t in ses.opens then Slotted(x.g, x.h, x.db) else Failed(x.g, x.h, x.db)])
  }

  ghost function AfterUnslot(s: Sys, t: StreamId): Sys
    requires S.Inv(s.ses) && t in s.streams && t in s.ses.opens
  {
    var x := s.streams[t];
    s.(ses := S.Apply(s.ses, S.OpenFail(t)),
       streams := s.streams[t := if x.Pinned? then Unslotted(x.g, x.h, x.db) else Failed(x.g, x.h, x.db)])
  }

  function AfterPin(s: Sys, t: StreamId, pin: bool): Sys
    requires t in s.streams
  {
    var x := s.streams[t];
    s.(streams := s.streams[t :=
         if pin then Pinned(x.g, x.h, x.db)
         else if x.Pinned? then Slotted(x.g, x.h, x.db) else Failed(x.g, x.h, x.db)])
  }

  /** What the steps below rely on, from the invariant. */
  ghost predicate Usable(s: Sys, ev: Event)
    requires R.Inv(s.reg) && Enabled(s, ev)
  {
    && (ev.Unslot? || ev.Admit? ==> ev.t in s.ses.opens)
    && (ev.ReleaseFailed? ==> s.streams[ev.t].g in s.reg.minted)
    && (ev.TeardownRelease? ==> s.teardowns[ev.id].g in s.reg.minted)
  }

  ghost function Apply(s: Sys, ev: Event): Sys
    requires R.Inv(s.reg) && S.Inv(s.ses) && Enabled(s, ev) && Usable(s, ev)
  {
    match ev
    case Registry(rev) => s.(reg := R.Apply(s.reg, rev))
    case StreamGets(rev) => AfterGets(s, rev)
    case ReserveSlot(t) => AfterSlot(s, t)
    case Pin(t) => AfterPin(s, t, true)
    case Unpin(t) => AfterPin(s, t, false)
    case Unslot(t) => AfterUnslot(s, t)
    case Admit(t, id, principal, now) => AfterAdmit(s, t, id, principal, now)
    case ReleaseFailed(t, now) => Release(s, s.streams[t].g, now).(streams := s.streams - {t})
    case Session(sev) => AfterSession(s, sev)
    case TeardownUnpin(id) => s.(teardowns := s.teardowns[id := s.teardowns[id].(pinned := false)])
    case TeardownRelease(id, now) => Release(s, s.teardowns[id].g, now).(teardowns := s.teardowns - {id})
  }

  // ---- The invariant ----

  /** Whoever needs a reference has the claim on it ... */
  ghost predicate HoldersOk(streams: map<StreamId, Stream>, sessions: map<SessionId, Sessions.Session>,
                            teardowns: map<SessionId, Teardown>, claims: map<R.GrantId, Claim>)
  {
    && (forall t <- streams :: streams[t].g in claims && claims[streams[t].g] == Claim(OfStream(t), streams[t].h))
    && (forall id <- sessions :: sessions[id].release in claims &&
          claims[sessions[id].release] == Claim(OfSession(id), sessions[id].handle))
    && (forall id <- teardowns :: teardowns[id].g in claims &&
          claims[teardowns[id].g] == Claim(OfTeardown(id), teardowns[id].h))
  }

  /** ... and every claim has its holder. */
  ghost predicate ClaimsOk(streams: map<StreamId, Stream>, sessions: map<SessionId, Sessions.Session>,
                           teardowns: map<SessionId, Teardown>, claims: map<R.GrantId, Claim>)
  {
    forall g <- claims ::
      match claims[g].owner
      case OfStream(t) => t in streams && streams[t].g == g
      case OfSession(id) => id in sessions && sessions[id].release == g
      case OfTeardown(id) => id in teardowns && teardowns[id].g == g
  }

  /** A claimed reference is an unreleased grant on the handle it says. */
  ghost predicate LinksOk(reg: R.World, claims: map<R.GrantId, Claim>) {
    forall g <- claims ::
      && g in reg.grants && reg.grants[g] in reg.core.pool
      && reg.core.pool[reg.grants[g]].db == Some(claims[g].handle)
  }

  ghost predicate CallsOk(claims: map<R.GrantId, Claim>, taken: set<R.GrantId>, calls: multiset<R.GrantId>,
                          minted: set<R.GrantId>)
  {
    && claims.Keys <= taken <= minted
    && (forall g <- taken :: calls[g] == (if g in claims then 0 else 1))
    && (forall g <- calls :: g in taken)
  }

  ghost predicate OpensOk(streams: map<StreamId, Stream>, opens: map<S.RequestId, DbName>) {
    && (forall t <- opens :: t in streams && (streams[t].Slotted? || streams[t].Pinned?))
    && (forall t <- streams :: streams[t].Slotted? || streams[t].Pinned? ==> t in opens && opens[t] == streams[t].db)
  }

  ghost predicate Inv(s: Sys) {
    && R.Inv(s.reg)
    && S.Inv(s.ses)
    && HoldersOk(s.streams, s.ses.st.sessions, s.teardowns, s.claims)
    && ClaimsOk(s.streams, s.ses.st.sessions, s.teardowns, s.claims)
    && LinksOk(s.reg, s.claims)
    && CallsOk(s.claims, s.taken, s.calls, s.reg.minted)
    && OpensOk(s.streams, s.ses.opens)
    && s.teardowns.Keys <= s.ses.torn.Keys
  }

  lemma InvUsable(s: Sys, ev: Event)
    requires Inv(s) && Enabled(s, ev)
    ensures Usable(s, ev)
  {
    hide R.Inv, S.Inv, ClaimsOk, LinksOk;
  }

  // ---- Each way ownership moves ----

  lemma RegistryLinks(reg: R.World, rev: R.Event, claims: map<R.GrantId, Claim>)
    requires R.Inv(reg) && R.Enabled(reg, rev) && LinksOk(reg, claims)
    requires rev.Release? ==> rev.g !in claims
    ensures LinksOk(R.Apply(reg, rev), claims)
  {
    hide R.Inv;
    forall g | g in claims
      ensures var v := R.Apply(reg, rev);
              g in v.grants && v.grants[g] in v.core.pool && v.core.pool[v.grants[g]].db == Some(claims[g].handle)
    {
      R.GrantStays(reg, rev, g);
    }
  }

  /** A stream that keeps its reference may change in any other way. */
  lemma SameReference(streams: map<StreamId, Stream>, sessions: map<SessionId, Sessions.Session>,
                      teardowns: map<SessionId, Teardown>, claims: map<R.GrantId, Claim>, t: StreamId, x: Stream)
    requires HoldersOk(streams, sessions, teardowns, claims) && ClaimsOk(streams, sessions, teardowns, claims)
    requires t in streams && x.g == streams[t].g && x.h == streams[t].h
    ensures HoldersOk(streams[t := x], sessions, teardowns, claims)
    ensures ClaimsOk(streams[t := x], sessions, teardowns, claims)
  {
  }

  lemma GetsClaim(streams: map<StreamId, Stream>, sessions: map<SessionId, Sessions.Session>,
                  teardowns: map<SessionId, Teardown>, claims: map<R.GrantId, Claim>, t: StreamId, x: Stream)
    requires HoldersOk(streams, sessions, teardowns, claims) && ClaimsOk(streams, sessions, teardowns, claims)
    requires t !in streams && x.g !in claims
    ensures HoldersOk(streams[t := x], sessions, teardowns, claims[x.g := Claim(OfStream(t), x.h)])
    ensures ClaimsOk(streams[t := x], sessions, teardowns, claims[x.g := Claim(OfStream(t), x.h)])
  {
  }

  lemma AdmitMoves(streams: map<StreamId, Stream>, sessions: map<SessionId, Sessions.Session>,
                   teardowns: map<SessionId, Teardown>, claims: map<R.GrantId, Claim>,
                   t: StreamId, id: SessionId, s: Sessions.Session)
    requires HoldersOk(streams, sessions, teardowns, claims) && ClaimsOk(streams, sessions, teardowns, claims)
    requires t in streams && id !in sessions && s.release == streams[t].g && s.handle == streams[t].h
    ensures HoldersOk(streams - {t}, sessions[id := s], teardowns, claims[s.release := Claim(OfSession(id), s.handle)])
    ensures ClaimsOk(streams - {t}, sessions[id := s], teardowns, claims[s.release := Claim(OfSession(id), s.handle)])
  {
  }

  lemma StreamDrops(streams: map<StreamId, Stream>, sessions: map<SessionId, Sessions.Session>,
                    teardowns: map<SessionId, Teardown>, claims: map<R.GrantId, Claim>, t: StreamId)
    requires HoldersOk(streams, sessions, teardowns, claims) && ClaimsOk(streams, sessions, teardowns, claims)
    requires t in streams
    ensures HoldersOk(streams - {t}, sessions, teardowns, claims - {streams[t].g})
    ensures ClaimsOk(streams - {t}, sessions, teardowns, claims - {streams[t].g})
  {
  }

  lemma TeardownDrops(streams: map<StreamId, Stream>, sessions: map<SessionId, Sessions.Session>,
                      teardowns: map<SessionId, Teardown>, claims: map<R.GrantId, Claim>, id: SessionId)
    requires HoldersOk(streams, sessions, teardowns, claims) && ClaimsOk(streams, sessions, teardowns, claims)
    requires id in teardowns
    ensures HoldersOk(streams, sessions, teardowns - {id}, claims - {teardowns[id].g})
    ensures ClaimsOk(streams, sessions, teardowns - {id}, claims - {teardowns[id].g})
  {
  }

  ghost function TeardownsOf(sessions: map<SessionId, Sessions.Session>, torn: set<SessionId>): map<SessionId, Teardown>
    requires torn <= sessions.Keys
  {
    map id | id in torn :: Teardown(sessions[id].release, sessions[id].handle, true)
  }

  lemma ClaimsTorn(streams: map<StreamId, Stream>, sessions: map<SessionId, Sessions.Session>,
                   teardowns: map<SessionId, Teardown>, claims: map<R.GrantId, Claim>,
                   after: map<SessionId, Sessions.Session>, torn: set<SessionId>)
    requires HoldersOk(streams, sessions, teardowns, claims) && ClaimsOk(streams, sessions, teardowns, claims)
    requires torn == sessions.Keys - after.Keys && teardowns.Keys !! sessions.Keys
    requires forall id <- after :: id in sessions && after[id].release == sessions[id].release &&
                                   after[id].handle == sessions[id].handle
    ensures HoldersOk(streams, after, teardowns + TeardownsOf(sessions, torn), Claimed(claims, torn))
    ensures ClaimsOk(streams, after, teardowns + TeardownsOf(sessions, torn), Claimed(claims, torn))
  {
  }

  /** Sessions closed by any route pass their references to their teardowns. */
  lemma SessionsMove(s: Sys, sev: S.Event)
    requires S.Inv(s.ses) && S.Enabled(s.ses, sev) && !sev.OpenOk?
    requires HoldersOk(s.streams, s.ses.st.sessions, s.teardowns, s.claims)
    requires ClaimsOk(s.streams, s.ses.st.sessions, s.teardowns, s.claims)
    requires s.teardowns.Keys <= s.ses.torn.Keys
    ensures var v := AfterSession(s, sev);
            && HoldersOk(v.streams, v.ses.st.sessions, v.teardowns, v.claims)
            && ClaimsOk(v.streams, v.ses.st.sessions, v.teardowns, v.claims)
            && v.teardowns.Keys <= v.ses.torn.Keys
            && v.claims.Keys == s.claims.Keys
            && (forall g <- s.claims :: v.claims[g].handle == s.claims[g].handle)
  {
    hide S.Inv, S.Apply, HoldersOk, ClaimsOk;
    S.SessionsFramed(s.ses, sev);
    S.TornApart(s.ses);
    var after := S.Apply(s.ses, sev).st.sessions;
    ClaimsTorn(s.streams, s.ses.st.sessions, s.teardowns, s.claims, after, s.ses.st.sessions.Keys - after.Keys);
  }

  lemma ReleaseCalls(claims: map<R.GrantId, Claim>, taken: set<R.GrantId>, calls: multiset<R.GrantId>,
                     minted: set<R.GrantId>, g: R.GrantId)
    requires CallsOk(claims, taken, calls, minted) && g in claims
    ensures CallsOk(claims - {g}, taken, calls + multiset{g}, minted)
  {
  }

  // ---- Preservation ----

  lemma RegistryKeeps(s: Sys, rev: R.Event)
    requires Inv(s) && Enabled(s, Registry(rev))
    ensures Inv(s.(reg := R.Apply(s.reg, rev)))
  {
    hide R.Inv, S.Inv, HoldersOk, ClaimsOk, LinksOk, OpensOk;
    R.StepKeeps(s.reg, rev);
    RegistryLinks(s.reg, rev, s.claims);
    R.MintedGrows(s.reg, rev);
  }

  lemma GetsKeeps(s: Sys, rev: R.Event)
    requires Inv(s) && Enabled(s, StreamGets(rev))
    ensures Inv(AfterGets(s, rev))
  {
    hide R.Inv, R.Apply, S.Inv, HoldersOk, ClaimsOk, OpensOk;
    var v := AfterGets(s, rev);
    R.StepKeeps(s.reg, rev);
    RegistryLinks(s.reg, rev, s.claims);
    R.MintedGrows(s.reg, rev);
    R.GrantedEntry(v.reg, rev.g);
    assert LinksOk(v.reg, v.claims);
    assert CallsOk(v.claims, v.taken, v.calls, v.reg.minted);
    GetsClaim(s.streams, s.ses.st.sessions, s.teardowns, s.claims, rev.t, v.streams[rev.t]);
    OpensFramed(s.streams, s.ses.opens, rev.t, v.streams[rev.t]);
  }

  lemma OpensFramed(streams: map<StreamId, Stream>, opens: map<S.RequestId, DbName>, t: StreamId, x: Stream)
    requires OpensOk(streams, opens) && t !in streams && !x.Slotted? && !x.Pinned?
    ensures OpensOk(streams[t := x], opens)
  {
  }

  lemma ReleaseKeeps(s: Sys, g: R.GrantId, now: Instant)
    requires R.Inv(s.reg) && LinksOk(s.reg, s.claims) && CallsOk(s.claims, s.taken, s.calls, s.reg.minted)
    requires g in s.claims
    ensures R.Enabled(s.reg, R.Release(g, now))
    ensures var v := Release(s, g, now);
            R.Inv(v.reg) && LinksOk(v.reg, v.claims) && CallsOk(v.claims, v.taken, v.calls, v.reg.minted)
  {
    hide R.Inv, R.Apply, LinksOk;
    var rev := R.Release(g, now);
    R.StepKeeps(s.reg, rev);
    R.MintedGrows(s.reg, rev);
    ReleaseCalls(s.claims, s.taken, s.calls, s.reg.minted, g);
    LinksSubset(s.reg, s.claims, g);
    RegistryLinks(s.reg, rev, s.claims - {g});
  }

  lemma LinksSubset(reg: R.World, claims: map<R.GrantId, Claim>, g: R.GrantId)
    requires LinksOk(reg, claims)
    ensures LinksOk(reg, claims - {g})
  {
  }

  lemma SlotKeeps(s: Sys, ev: Event)
    requires Inv(s) && Enabled(s, ev) && (ev.ReserveSlot? || ev.Unslot?)
    ensures Usable(s, ev) && Inv(Apply(s, ev))
  {
    hide R.Inv, S.Inv, HoldersOk, ClaimsOk, LinksOk, CallsOk;
    InvUsable(s, ev);
    var t := ev.t;
    var sev := if ev.ReserveSlot? then S.OpenStart(t, s.streams[t].db) else S.OpenFail(t);
    S.StepKeeps(s.ses, sev);
    SameReference(s.streams, s.ses.st.sessions, s.teardowns, s.claims, t, Apply(s, ev).streams[t]);
  }

  lemma PinKeeps(s: Sys, ev: Event)
    requires Inv(s) && Enabled(s, ev) && (ev.Pin? || ev.Unpin?)
    ensures Usable(s, ev) && Inv(Apply(s, ev))
  {
    hide R.Inv, S.Inv, HoldersOk, ClaimsOk, LinksOk, CallsOk;
    SameReference(s.streams, s.ses.st.sessions, s.teardowns, s.claims, ev.t, Apply(s, ev).streams[ev.t]);
  }

  lemma AdmitKeeps(s: Sys, ev: Event)
    requires Inv(s) && Enabled(s, ev) && ev.Admit?
    ensures Usable(s, ev) && Inv(Apply(s, ev))
  {
    hide R.Inv, S.Inv, HoldersOk, ClaimsOk;
    InvUsable(s, ev);
    StreamClaim(s, ev.t);
    S.TornApart(s.ses);
    var x := s.streams[ev.t];
    S.StepKeeps(s.ses, S.OpenOk(ev.t, ev.id, ev.principal, x.h, x.g, ev.now));
    var v := Apply(s, ev);
    AdmitMoves(s.streams, s.ses.st.sessions, s.teardowns, s.claims, ev.t, ev.id, v.ses.st.sessions[ev.id]);
  }

  lemma StreamClaim(s: Sys, t: StreamId)
    requires HoldersOk(s.streams, s.ses.st.sessions, s.teardowns, s.claims) && t in s.streams
    ensures s.streams[t].g in s.claims && s.claims[s.streams[t].g] == Claim(OfStream(t), s.streams[t].h)
  {
  }

  lemma TeardownClaim(s: Sys, id: SessionId)
    requires HoldersOk(s.streams, s.ses.st.sessions, s.teardowns, s.claims) && id in s.teardowns
    ensures s.teardowns[id].g in s.claims
  {
  }

  lemma FailedKeeps(s: Sys, ev: Event)
    requires Inv(s) && Enabled(s, ev) && ev.ReleaseFailed?
    ensures Usable(s, ev) && Inv(Apply(s, ev))
  {
    hide R.Inv, S.Inv, HoldersOk, ClaimsOk, LinksOk, CallsOk;
    InvUsable(s, ev);
    StreamClaim(s, ev.t);
    ReleaseKeeps(s, s.streams[ev.t].g, ev.now);
    StreamDrops(s.streams, s.ses.st.sessions, s.teardowns, s.claims, ev.t);
  }

  lemma TeardownKeeps(s: Sys, ev: Event)
    requires Inv(s) && Enabled(s, ev) && (ev.TeardownUnpin? || ev.TeardownRelease?)
    ensures Usable(s, ev) && Inv(Apply(s, ev))
  {
    hide R.Inv, S.Inv, LinksOk, CallsOk, OpensOk;
    InvUsable(s, ev);
    if ev.TeardownRelease? {
      TeardownClaim(s, ev.id);
      hide HoldersOk, ClaimsOk;
      ReleaseKeeps(s, s.teardowns[ev.id].g, ev.now);
      TeardownDrops(s.streams, s.ses.st.sessions, s.teardowns, s.claims, ev.id);
    }
  }

  lemma SessionKeeps(s: Sys, sev: S.Event)
    requires S.Inv(s.ses) && S.Enabled(s.ses, sev) && Inv(s) && Enabled(s, Event.Session(sev))
    ensures Inv(AfterSession(s, sev))
  {
    hide R.Inv, S.Inv, HoldersOk, ClaimsOk;
    S.StepKeeps(s.ses, sev);
    SessionsMove(s, sev);
    S.OpensFixed(s.ses, sev);
    hide S.Apply;
  }

  /** Every step of the composed system keeps the invariant. */
  lemma StepKeeps(s: Sys, ev: Event)
    requires Inv(s) && Enabled(s, ev)
    ensures Usable(s, ev) && Inv(Apply(s, ev))
  {
    hide R.Inv, S.Inv, HoldersOk, ClaimsOk, LinksOk, CallsOk, OpensOk;
    match ev
    case Registry(rev) => RegistryKeeps(s, rev);
    case StreamGets(rev) => GetsKeeps(s, rev);
    case ReserveSlot(_) => SlotKeeps(s, ev);
    case Pin(_) => PinKeeps(s, ev);
    case Unpin(_) => PinKeeps(s, ev);
    case Unslot(_) => SlotKeeps(s, ev);
    case Admit(_, _, _, _) => AdmitKeeps(s, ev);
    case ReleaseFailed(_, _) => FailedKeeps(s, ev);
    case Session(sev) => SessionKeeps(s, sev);
    case TeardownUnpin(_) => TeardownKeeps(s, ev);
    case TeardownRelease(_, _) => TeardownKeeps(s, ev);
  }

  // ---- Runs ----

  ghost function Start(backends: set<DbName>, ttl: int, maxLife: int, max: int): (s: Sys)
    ensures Inv(s)
  {
    Sys(R.Start(backends), S.Start(ttl, maxLife, max), map[], map[], map[], {}, multiset{})
  }

  ghost function Next(s: Sys, ev: Event): (v: Sys)
    requires Inv(s) && Enabled(s, ev)
    ensures Inv(v)
  {
    StepKeeps(s, ev); Apply(s, ev)
  }

  ghost predicate Legal(s: Sys, evs: seq<Event>)
    requires Inv(s)
    decreases |evs|
  {
    |evs| == 0 ||
    (Enabled(s, evs[0]) && Legal(Next(s, evs[0]), evs[1..]))
  }

  ghost function Run(s: Sys, evs: seq<Event>): (r: Sys)
    requires Inv(s) && Legal(s, evs)
    ensures Inv(r)
    decreases |evs|
  {
    if |evs| == 0 then s else Run(Next(s, evs[0]), evs[1..])
  }

  /** A stream gets a slot if its database has one left; otherwise it fails, still owing
      its reference. */
  lemma SlotExact(s: Sys, t: StreamId)
    requires Inv(s) && Enabled(s, ReserveSlot(t))
    ensures var x := s.streams[t]; var v := AfterSlot(s, t);
            && t in v.streams
            && v.streams[t] == (if Count(S.DbOf(s.ses.st.sessions), x.db) + Count(s.ses.opens, x.db) < s.ses.st.max
                                then Slotted(x.g, x.h, x.db) else Failed(x.g, x.h, x.db))
  {
    hide R.Inv, HoldersOk, ClaimsOk, LinksOk, CallsOk, OpensOk, S.RequestsOk, S.HistoryOk;
    var db := s.streams[t].db;
    assert s.ses.st.Slots(db) == Count(S.DbOf(s.ses.st.sessions), db) + Count(s.ses.opens, db);
  }

  /** Pinning a connection, and letting go of it and of the slot, in either order. */
  lemma PinExact(s: Sys, t: StreamId)
    requires t in s.streams
    ensures var Sys(_, _, streams, _, _, _, _) := AfterPin(s, t, true); var x := s.streams[t];
            t in streams && streams[t] == Pinned(x.g, x.h, x.db)
    ensures var Sys(_, _, streams, _, _, _, _) := AfterPin(s, t, false); var x := s.streams[t];
            t in streams && streams[t] == if x.Pinned? then Slotted(x.g, x.h, x.db) else Failed(x.g, x.h, x.db)
    ensures S.Inv(s.ses) && t in s.ses.opens ==>
              var v := AfterUnslot(s, t); var x := s.streams[t];
              && t in v.streams && t !in v.ses.opens
              && v.streams[t] == if x.Pinned? then Unslotted(x.g, x.h, x.db) else Failed(x.g, x.h, x.db)
  {
    hide S.SlotsOk, S.RequestsOk, S.HistoryOk;
  }

  /** The stream becomes a session that owns its reference and handle, for its database
      and the principal that opened it, with the request running on it. */
  lemma AdmitExact(s: Sys, t: StreamId, id: SessionId, principal: string, now: Instant)
    requires t in s.streams && s.streams[t].Pinned? && t in s.ses.opens && id !in s.ses.used
    requires S.Inv(s.ses) && OpensOk(s.streams, s.ses.opens)
    ensures var v := AfterAdmit(s, t, id, principal, now); var x := s.streams[t];
            && t !in v.streams && id in v.ses.st.sessions && t in v.ses.requests && v.ses.requests[t] == id
            && var y := v.ses.st.sessions[id];
               y.handle == x.h && y.release == x.g && y.principal == principal && y.db == x.db && y.busy
  {
    hide S.SlotsOk, S.RequestsOk, S.HistoryOk;
  }

  /** A connection of the stream layer, in use or being torn down, points into `h`. */
  ghost predicate PinnedInto(s: Sys, h: nat) {
    || (exists t <- s.streams :: (s.streams[t].Pinned? || s.streams[t].Unslotted?) && s.streams[t].h == h)
    || (exists id <- s.ses.st.sessions :: s.ses.st.sessions[id].handle == h)
    || (exists id <- s.teardowns :: s.teardowns[id].pinned && s.teardowns[id].h == h)
  }

  lemma ClaimedHandleOpen(s: Sys, g: R.GrantId)
    requires R.Inv(s.reg) && LinksOk(s.reg, s.claims) && g in s.claims
    ensures s.claims[g].handle !in s.reg.closed + s.reg.pending
  {
    R.GrantedEntry(s.reg, g);
    R.HeldOpen(s.reg, g);
    hide R.Inv;
  }

  /** In every run of the composed system, a handle with a stream connection pinned
      into it is neither closed nor queued for closing. */
  lemma NoCloseUnderConnection(backends: set<DbName>, ttl: int, maxLife: int, max: int, evs: seq<Event>, h: nat)
    requires Legal(Start(backends, ttl, maxLife, max), evs)
    requires PinnedInto(Run(Start(backends, ttl, maxLife, max), evs), h)
    ensures var s := Run(Start(backends, ttl, maxLife, max), evs);
            h !in s.reg.closed && h !in s.reg.pending
  {
    var s := Run(Start(backends, ttl, maxLife, max), evs);
    hide R.Inv, S.Inv, ClaimsOk, LinksOk, CallsOk, OpensOk;
    if t :| t in s.streams && (s.streams[t].Pinned? || s.streams[t].Unslotted?) && s.streams[t].h == h {
      ClaimedHandleOpen(s, s.streams[t].g);
    } else if id :| id in s.ses.st.sessions && s.ses.st.sessions[id].handle == h {
      ClaimedHandleOpen(s, s.ses.st.sessions[id].release);
    } else {
      var id :| id in s.teardowns && s.teardowns[id].pinned && s.teardowns[id].h == h;
      ClaimedHandleOpen(s, s.teardowns[id].g);
    }
  }

  /** Some stream, session or teardown still answers for the reference. */
  ghost predicate Answered(s: Sys, g: R.GrantId) {
    || (exists t <- s.streams :: s.streams[t].g == g)
    || (exists id <- s.ses.st.sessions :: s.ses.st.sessions[id].release == g)
    || (exists id <- s.teardowns :: s.teardowns[id].g == g)
  }

  /** In every run, a reference taken for a stream is released exactly once: never
      while somebody still answers for it, and once nobody does it has been. */
  lemma ReleasedExactlyOnce(backends: set<DbName>, ttl: int, maxLife: int, max: int, evs: seq<Event>, g: R.GrantId)
    requires Legal(Start(backends, ttl, maxLife, max), evs)
    requires g in Run(Start(backends, ttl, maxLife, max), evs).taken
    ensures var s := Run(Start(backends, ttl, maxLife, max), evs);
            s.calls[g] == (if Answered(s, g) then 0 else 1)
  {
    var s := Run(Start(backends, ttl, maxLife, max), evs);
    hide R.Inv, S.Inv, HoldersOk, ClaimsOk, LinksOk, OpensOk;
    ClaimedIffAnswered(s, g);
  }

  lemma ClaimedIffAnswered(s: Sys, g: R.GrantId)
    requires HoldersOk(s.streams, s.ses.st.sessions, s.teardowns, s.claims)
    requires ClaimsOk(s.streams, s.ses.st.sessions, s.teardowns, s.claims)
    ensures g in s.claims <==> Answered(s, g)
  {
  }
}
