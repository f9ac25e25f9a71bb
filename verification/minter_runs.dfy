/** Whole lives of session tokens: every history of mints, renewals, transparent
    refreshes, step-ups and revocations on a monotone clock (auth/session.go,
    auth/auth.go). Presented tokens are ones the minter issued: forging one means
    forging its MAC. */
module MinterRuns {
  import opened Basics
  import opened Bytes
  import opened TokenCodec
  import opened Assurance
  import opened Minter

  /** One issued token: when, after how many transparent refreshes along its renewal
      chain, and from which earlier token. */
  datatype Issued = Issued(tok: Token, at: Instant, refreshes: nat, parent: Option<nat>)

  /** A session: its first token and when it was minted. */
  datatype Born = Born(at: Instant, first: Token)

  datatype World = World(
    cfg: Settings,
    clock: Instant,
    revoked: Revocations,
    issued: seq<Issued>,
    born: map<Sid, Born>,
    deadlines: Revocations)  // of each revoked session, the deadline recorded last

  datatype Event =
    | Mint(sid: Sid, principal: seq<byte>, c: Claims, now: Instant)
    | RenewTok(i: nat, now: Instant)
    | RefreshTok(i: nat, now: Instant)
    | StepUp(i: nat, add: Flags, cred: seq<byte>, sid: Sid, now: Instant)
    | RevokeTok(i: nat, now: Instant)
    | RevokeId(sid: Sid, now: Instant)
    | RevokeBulk(sids: map<Sid, Instant>, except: Option<Sid>, now: Instant)

  /** Fresh session ids and a clock that never goes back; a bulk revocation brings any
      deadlines. Only step-up passes an authentication time to the minter; every other
      caller leaves it unset. */
  ghost predicate Enabled(w: World, ev: Event) {
    ev.now >= w.clock &&
    match ev
    case Mint(sid, _, c, _) => Unused(w, sid) && c.authTime.Zero?
    case RenewTok(i, _) => i < |w.issued|
    case RefreshTok(i, _) => i < |w.issued|
    case StepUp(i, _, _, sid, now) => i < |w.issued| && Unused(w, sid) && Verifies(w.revoked, w.issued[i].tok, now)
    case RevokeTok(i, _) => i < |w.issued|
    case RevokeId(_, _) => true
    case RevokeBulk(_, _, _) => true
  }

  ghost predicate Unused(w: World, sid: Sid) {
    sid !in w.born && sid !in w.deadlines
  }

  /** The deadlines a step records, by session. */
  ghost function Recorded(w: World, ev: Event): Revocations
    requires Enabled(w, ev)
  {
    match ev
    case RevokeTok(i, now) =>
      var t := w.issued[i].tok;
      if now <= t.exp then map[t.sid := if t.exp > t.hard then t.exp else t.hard] else map[]
    case RevokeId(sid, now) => map[sid := now + w.cfg.idle + w.cfg.max]
    case RevokeBulk(sids, except, _) => if except.Some? then sids - {except.value} else sids
    case _ => map[]
  }

  function Begin(w: World, t: Token, now: Instant, parent: Option<nat>): World {
    w.(issued := w.issued + [Issued(t, now, 0, parent)], born := w.born[t.sid := Born(now, t)])
  }

  /** The token `u` was handed out for token `i`. */
  function Slide(w: World, i: nat, u: Token, now: Instant, refresh: nat): World
    requires i < |w.issued|
  {
    w.(issued := w.issued + [Issued(u, now, w.issued[i].refreshes + refresh, Some(i))])
  }

  ghost function Apply(w0: World, ev: Event): World
    requires w0.cfg.Valid() && Enabled(w0, ev)
  {
    var w := w0.(clock := ev.now, deadlines := w0.deadlines + Recorded(w0, ev));
    match ev
    case Mint(sid, principal, c, now) =>
      Begin(w, Normal(MintToken(w.cfg, sid, principal, c, now)), now, None)
    case StepUp(i, add, cred, sid, now) =>
      var t := w.issued[i].tok;
      Begin(w, Normal(MintToken(w.cfg, sid, t.principal, StepUpClaims(t.claims, add, cred), now)), now, Some(i))
    case RenewTok(i, now) =>
      var r := Renew(w.cfg, w.revoked, w.issued[i].tok, now);
      if r.Renewed? then Slide(w, i, r.token, now, 0) else w
    case RefreshTok(i, now) =>
      var r := Refresh(w.cfg, w.revoked, w.issued[i].tok, now);
      if r.Some? then Slide(w, i, r.value, now, 1) else w
    case RevokeTok(i, now) =>
      var r := Revoke(w.revoked, w.issued[i].tok, now);
      if r.Some? then w.(revoked := r.value) else w
    case RevokeId(sid, now) => w.(revoked := RevokeOne(w.cfg, w.revoked, sid, now))
    case RevokeBulk(sids, except, _) => w.(revoked := RevokeSids(w.revoked, sids, except))
  }

  // ---- The invariant ----

  ghost predicate BornOk(cfg: Settings, clock: Instant, b: Born) {
    && 0 < b.at <= clock
    && b.first.hard == (if cfg.max > 0 then b.at + cfg.max else 0)
    && b.first.claims.authTime.At? && b.first.claims.authTime != At(0)
  }

  /** A token differs from its session's first only in its expiry, which slides with
      the time of issue and stops at the hard deadline; refreshes are spaced by half
      an idle window. */
  ghost predicate TokenOk(cfg: Settings, clock: Instant, b: Born, x: Issued) {
    && x.tok == b.first.(exp := x.tok.exp)
    && b.at <= x.at <= clock
    && x.refreshes * cfg.Half() <= x.at - b.at
    && (if cfg.max > 0
        then x.at < x.tok.hard && x.tok.exp == (if x.at + cfg.idle > x.tok.hard then x.tok.hard else x.at + cfg.idle)
        else x.at == b.at && x.tok.exp == x.at + cfg.idle)
  }

  ghost predicate TokensOk(cfg: Settings, clock: Instant, born: map<Sid, Born>, issued: seq<Issued>) {
    && (forall sid <- born :: BornOk(cfg, clock, born[sid]))
    && (forall i :: 0 <= i < |issued| ==>
          issued[i].tok.sid in born && TokenOk(cfg, clock, born[issued[i].tok.sid], issued[i]))
  }

  /** The link from a token to the one it was made from. */
  ghost predicate LinkOk(issued: seq<Issued>, i: nat)
    requires i < |issued|
  {
    issued[i].parent.Some? ==>
      var p := issued[i].parent.value;
      && p < i
      && issued[i].tok.claims.authTime == issued[p].tok.claims.authTime
      && (issued[i].tok.sid == issued[p].tok.sid ==>
            && issued[i].tok == issued[p].tok.(exp := issued[i].tok.exp)
            && issued[p].tok.exp <= issued[i].tok.exp <= issued[i].tok.hard
            && issued[p].refreshes <= issued[i].refreshes <= issued[p].refreshes + 1)
  }

  ghost predicate LinksOk(issued: seq<Issued>) {
    forall i :: 0 <= i < |issued| ==> LinkOk(issued, i)
  }

  /** The revocation map holds the deadline recorded last, or it has passed and been
      swept. */
  ghost predicate RecordsOk(revoked: Revocations, deadlines: Revocations, clock: Instant) {
    && revoked.Keys <= deadlines.Keys
    && (forall sid <- deadlines :: if sid in revoked then revoked[sid] == deadlines[sid] else deadlines[sid] < clock)
  }

  ghost predicate Inv(w: World) {
    && w.cfg.Valid() && w.clock > 0
    && TokensOk(w.cfg, w.clock, w.born, w.issued)
    && LinksOk(w.issued)
    && RecordsOk(w.revoked, w.deadlines, w.clock)
  }

  ghost function Start(cfg: Settings, clock: Instant): (w: World)
    requires cfg.Valid() && clock > 0
    ensures Inv(w)
  {
    World(cfg, clock, map[], [], map[], map[])
  }

  lemma Later(cfg: Settings, clock: Instant, born: map<Sid, Born>, issued: seq<Issued>, now: Instant)
    requires TokensOk(cfg, clock, born, issued) && clock <= now
    ensures TokensOk(cfg, now, born, issued)
  {
  }

  lemma BeginKeeps(w: World, t: Token, now: Instant, parent: Option<nat>)
    requires Inv(w) && t.sid !in w.born && w.clock == now
    requires t.exp == now + w.cfg.idle && t.hard == (if w.cfg.max > 0 then now + w.cfg.max else 0)
    requires t.claims.authTime.At? && t.claims.authTime != At(0)
    requires parent.Some? ==>
               parent.value < |w.issued| && w.issued[parent.value].tok.claims.authTime == t.claims.authTime
    ensures Inv(Begin(w, t, now, parent))
  {
    var v := Begin(w, t, now, parent);
    assert 0 * w.cfg.Half() == 0;
    forall i | 0 <= i < |v.issued| ensures LinkOk(v.issued, i) {
      if i < |w.issued| { assert LinkOk(w.issued, i); }
    }
    forall i | 0 <= i < |v.issued|
      ensures v.issued[i].tok.sid in v.born && TokenOk(v.cfg, v.clock, v.born[v.issued[i].tok.sid], v.issued[i])
    {
      if i < |w.issued| { assert TokenOk(w.cfg, w.clock, w.born[w.issued[i].tok.sid], w.issued[i]); }
    }
  }

  /** A slide happens only in a live window; a refresh only past its middle. */
  lemma SlideKeeps(w: World, i: nat, u: Token, now: Instant, refresh: nat)
    requires Inv(w) && i < |w.issued| && w.clock == now && refresh <= 1
    requires w.issued[i].tok.hard != 0 && now < w.issued[i].tok.hard
    requires var t := w.issued[i].tok; u == t.(exp := if now + w.cfg.idle > t.hard then t.hard else now + w.cfg.idle)
    requires refresh == 1 ==>
               w.issued[i].tok.exp - now <= w.cfg.idle / 2 && w.issued[i].tok.exp < w.issued[i].tok.hard
    ensures Inv(Slide(w, i, u, now, refresh))
  {
    var v := Slide(w, i, u, now, refresh);
    var x := w.issued[i];
    var half := w.cfg.Half();
    assert TokenOk(w.cfg, w.clock, w.born[x.tok.sid], x);
    assert (x.refreshes + refresh) * half == x.refreshes * half + refresh * half;
    assert TokenOk(v.cfg, v.clock, v.born[x.tok.sid], v.issued[|w.issued|]);
    forall j | 0 <= j < |v.issued| ensures LinkOk(v.issued, j) {
      if j < |w.issued| { assert LinkOk(w.issued, j); }
    }
  }

  lemma RecordKeeps(w: World, ev: Event)
    requires RecordsOk(w.revoked, w.deadlines, w.clock) && w.cfg.Valid() && Enabled(w, ev)
    ensures var v := Apply(w, ev); RecordsOk(v.revoked, v.deadlines, v.clock)
  {
  }

  lemma StepKeeps(w0: World, ev: Event)
    requires Inv(w0) && Enabled(w0, ev)
    ensures Inv(Apply(w0, ev))
  {
    hide LinksOk, TokensOk, RecordsOk;
    RecordKeeps(w0, ev);
    var v := Apply(w0, ev);
    var w := w0.(clock := ev.now, revoked := v.revoked, deadlines := v.deadlines);
    Later(w0.cfg, w0.clock, w0.born, w0.issued, ev.now);
    match ev
    case Mint(sid, principal, c, now) =>
      BeginKeeps(w, Normal(MintToken(w.cfg, sid, principal, c, now)), now, None);
    case StepUp(i, add, cred, sid, now) =>
      TokenTimes(w, i);
      var t := w.issued[i].tok;
      BeginKeeps(w, Normal(MintToken(w.cfg, sid, t.principal, StepUpClaims(t.claims, add, cred), now)), now, Some(i));
    case RenewTok(i, now) =>
      var r := Renew(w.cfg, w.revoked, w.issued[i].tok, now);
      if r.Renewed? { SlideKeeps(w, i, r.token, now, 0); }
    case RefreshTok(i, now) =>
      var r := Refresh(w.cfg, w.revoked, w.issued[i].tok, now);
      if r.Some? { SlideKeeps(w, i, r.value, now, 1); }
    case _ =>
  }

  /** No token of the minter carries the zero authentication time. */
  lemma TokenTimes(w: World, i: nat)
    requires Inv(w) && i < |w.issued|
    ensures w.issued[i].tok.claims.authTime.At? && w.issued[i].tok.claims.authTime != At(0)
  {
  }

  // ---- Runs ----

  ghost function Next(w: World, ev: Event): (v: World)
    requires Inv(w) && Enabled(w, ev)
    ensures Inv(v)
  {
    StepKeeps(w, ev); Apply(w, ev)
  }

  ghost predicate Legal(w: World, evs: seq<Event>)
    requires Inv(w)
    decreases |evs|
  {
    |evs| == 0 || (Enabled(w, evs[0]) && Legal(Next(w, evs[0]), evs[1..]))
  }

  ghost function Run(w: World, evs: seq<Event>): (r: World)
    requires Inv(w) && Legal(w, evs)
    ensures Inv(r)
    decreases |evs|
  {
    if |evs| == 0 then w else Run(Next(w, evs[0]), evs[1..])
  }

  /** Nothing is forgotten along a run: tokens stay issued, and time goes forward. */
  lemma {:induction false} RunGrows(w: World, evs: seq<Event>)
    requires Inv(w) && Legal(w, evs)
    ensures var v := Run(w, evs);
            v.cfg == w.cfg && w.clock <= v.clock && w.issued <= v.issued
    decreases |evs|
  {
    hide TokensOk, LinksOk, RecordsOk;
    if |evs| > 0 {
      RunGrows(Next(w, evs[0]), evs[1..]);
    }
  }

  // ---- Revocation ----

  ghost predicate Dead(w: World, t: Token, now: Instant)
    requires w.cfg.Valid()
  {
    && !Verifies(w.revoked, t, now)
    && !Renew(w.cfg, w.revoked, t, now).Renewed?
    && Refresh(w.cfg, w.revoked, t, now).None?
  }

  /** No token of the session outlives `deadline`, save those expired before `at`. */
  ghost predicate Covers(issued: seq<Issued>, sid: Sid, deadline: Instant, at: Instant) {
    forall i :: 0 <= i < |issued| && issued[i].tok.sid == sid ==>
      issued[i].tok.exp <= deadline || issued[i].tok.exp < at
  }

  /** The session is revoked, and the deadline recorded last covers its tokens. */
  ghost predicate Settled(w: World, sid: Sid) {
    sid in w.deadlines && Covers(w.issued, sid, w.deadlines[sid], w.clock)
  }

  lemma SettledDead(w: World, i: nat, now: Instant)
    requires Inv(w) && i < |w.issued| && Settled(w, w.issued[i].tok.sid) && now >= w.clock
    ensures Dead(w, w.issued[i].tok, now)
  {
    hide TokensOk, LinksOk;
  }

  /** Logout and revocation by id record a deadline no token of the session outlives. */
  lemma OwnDeadlines(w: World, ev: Event, sid: Sid)
    requires Inv(w) && Enabled(w, ev) && !ev.RevokeBulk? && sid in Recorded(w, ev)
    ensures Covers(w.issued, sid, Recorded(w, ev)[sid], ev.now)
  {
    hide LinksOk, RecordsOk;
    forall i | 0 <= i < |w.issued| && w.issued[i].tok.sid == sid ensures w.issued[i].tok.exp <= Recorded(w, ev)[sid] {
      assert TokenOk(w.cfg, w.clock, w.born[sid], w.issued[i]) && BornOk(w.cfg, w.clock, w.born[sid]);
      if ev.RevokeTok? {
        assert TokenOk(w.cfg, w.clock, w.born[sid], w.issued[ev.i]);
      }
    }
  }

  /** A revocation settles its session exactly if its deadline covers the tokens issued
      so far; logout and revocation by id always do. */
  lemma RevokeSettles(w: World, ev: Event, sid: Sid)
    requires Inv(w) && Enabled(w, ev) && sid in Recorded(w, ev)
    ensures Settled(Next(w, ev), sid) <==> Covers(w.issued, sid, Recorded(w, ev)[sid], ev.now)
    ensures !ev.RevokeBulk? ==> Settled(Next(w, ev), sid)
  {
    hide TokensOk, LinksOk, RecordsOk, Covers;
    if !ev.RevokeBulk? {
      OwnDeadlines(w, ev, sid);
    }
  }

  /** Anything but another revocation of the session leaves it settled. */
  lemma SettledStays(w: World, ev: Event, sid: Sid)
    requires Inv(w) && Enabled(w, ev) && Settled(w, sid) && sid !in Recorded(w, ev)
    ensures Settled(Next(w, ev), sid)
  {
    hide TokensOk, LinksOk;
  }

  /** Along the run, each further bulk revocation of the session brings a deadline that
      covers it. Nothing is asked of other steps. */
  ghost predicate Careful(w: World, evs: seq<Event>, sid: Sid)
    requires Inv(w) && Legal(w, evs)
    decreases |evs|
  {
    |evs| == 0 ||
    (var ev := evs[0];
     && (ev.RevokeBulk? && sid in Recorded(w, ev) ==> Covers(w.issued, sid, Recorded(w, ev)[sid], ev.now))
     && Careful(Next(w, ev), evs[1..], sid))
  }

  lemma {:induction false} SettledRun(w: World, evs: seq<Event>, sid: Sid)
    requires Inv(w) && Legal(w, evs) && Settled(w, sid) && Careful(w, evs, sid)
    ensures Settled(Run(w, evs), sid)
    decreases |evs|
  {
    hide Inv, Settled, Covers, Apply;
    if |evs| > 0 {
      if sid in Recorded(w, evs[0]) {
        RevokeSettles(w, evs[0], sid);
      } else {
        SettledStays(w, evs[0], sid);
      }
      SettledRun(Next(w, evs[0]), evs[1..], sid);
    }
  }

  /** Revocation is final. Once a session is settled (which every logout and revocation
      by id achieves, and a bulk revocation exactly if its deadline covers the session),
      after any further history no token of its chain, issued before or since, verifies,
      renews or refreshes at any later time, whether or not its entry has been
      garbage-collected meanwhile. */
  lemma RevokedForever(w: World, evs: seq<Event>, sid: Sid, i: nat, now: Instant)
    requires Inv(w) && Legal(w, evs) && Settled(w, sid) && Careful(w, evs, sid)
    requires i < |Run(w, evs).issued| && Run(w, evs).issued[i].tok.sid == sid && now >= Run(w, evs).clock
    ensures Dead(Run(w, evs), Run(w, evs).issued[i].tok, now)
  {
    SettledRun(w, evs, sid);
    SettledDead(Run(w, evs), i, now);
  }

  /** No step of the run revokes the session again. */
  ghost predicate Untouched(w: World, evs: seq<Event>, sid: Sid)
    requires Inv(w) && Legal(w, evs)
    decreases |evs|
  {
    |evs| == 0 || (sid !in Recorded(w, evs[0]) && Untouched(Next(w, evs[0]), evs[1..], sid))
  }

  lemma {:induction false} UntouchedCareful(w: World, evs: seq<Event>, sid: Sid)
    requires Inv(w) && Legal(w, evs) && Untouched(w, evs, sid)
    ensures Careful(w, evs, sid)
    decreases |evs|
  {
    hide Inv, Covers, Apply;
    if |evs| > 0 {
      UntouchedCareful(Next(w, evs[0]), evs[1..], sid);
    }
  }

  /** After the history `evs` token `i` of the session verifies at `now`. */
  ghost predicate Revives(w: World, evs: seq<Event>, sid: Sid, i: nat, now: Instant)
    requires Inv(w)
  {
    && Legal(w, evs) && Untouched(w, evs, sid)
    && i < |Run(w, evs).issued| && Run(w, evs).issued[i].tok.sid == sid
    && now >= Run(w, evs).clock && Verifies(Run(w, evs).revoked, Run(w, evs).issued[i].tok, now)
  }

  /** A token already issued outlives the deadline `d` and is not expired at `at`. */
  ghost predicate Outlives(issued: seq<Issued>, i: nat, sid: Sid, d: Instant, at: Instant) {
    i < |issued| && issued[i].tok.sid == sid && issued[i].tok.exp > d && issued[i].tok.exp >= at
  }

  /** Settled is exactly what it takes: otherwise a token comes back to life. */
  lemma SettledExact(w: World, sid: Sid)
    requires Inv(w) && sid in w.deadlines
    ensures Settled(w, sid) <==> !exists evs, i, now :: Revives(w, evs, sid, i, now)
  {
    if Settled(w, sid) {
      forall evs, i, now ensures !Revives(w, evs, sid, i, now) {
        if Revives(w, evs, sid, i, now) {
          UntouchedCareful(w, evs, sid);
          RevokedForever(w, evs, sid, i, now);
        }
      }
    } else {
      hide TokensOk, LinksOk;
      CoversNot(w.issued, sid, w.deadlines[sid], w.clock);
      var i: nat :| Outlives(w.issued, i, sid, w.deadlines[sid], w.clock);
      assert Revives(w, [], sid, i, w.issued[i].tok.exp);
    }
  }

  /** Exactly when a bulk revocation fails: some token of the session verifies again, at
      some time after some history without another revocation of it, if and only if one
      issued before the revocation outlives the deadline it stored. */
  lemma EarlyDeadline(w: World, ev: Event, sid: Sid)
    requires Inv(w) && Enabled(w, ev) && ev.RevokeBulk? && sid in ev.sids && ev.except != Some(sid)
    ensures (exists evs, i, now :: Revives(Next(w, ev), evs, sid, i, now)) <==>
              exists i :: Outlives(w.issued, i, sid, ev.sids[sid], ev.now)
  {
    var v := Next(w, ev);
    hide Inv;
    assert sid in v.deadlines && v.deadlines[sid] == ev.sids[sid] && v.issued == w.issued && v.clock == ev.now;
    hide Apply;
    SettledExact(v, sid);
    CoversNot(w.issued, sid, ev.sids[sid], ev.now);
  }

  /** The failing family: a deadline one short of an unexpired token's expiry leaves that
      token valid at its expiry, also when the session had been revoked before. */
  lemma EarlyByOne(w: World, i: nat)
    requires Inv(w) && i < |w.issued| && w.issued[i].tok.exp >= w.clock
    ensures var t := w.issued[i].tok;
            var ev := RevokeBulk(map[t.sid := t.exp - 1], None, w.clock);
            Enabled(w, ev) && Revives(Next(w, ev), [], t.sid, i, t.exp)
  {
    hide TokensOk, LinksOk, RecordsOk;
  }

  lemma CoversNot(issued: seq<Issued>, sid: Sid, d: Instant, at: Instant)
    ensures Covers(issued, sid, d, at) <==> !exists i :: Outlives(issued, i, sid, d, at)
  {
    if !Covers(issued, sid, d, at) {
      var i :| 0 <= i < |issued| && issued[i].tok.sid == sid && issued[i].tok.exp > d && issued[i].tok.exp >= at;
      assert Outlives(issued, i, sid, d, at);
    }
  }

  // ---- What each call answers ----

  /** Not past its expiry, and past the deadline recorded for its session, if any. */
  ghost predicate Live(w: World, t: Token, now: Instant) {
    now <= t.exp && (t.sid in w.deadlines ==> now > w.deadlines[t.sid])
  }

  /** Every answer about an issued token, at any time from now on: it verifies exactly
      while live; it is renewed exactly while live and before its hard deadline; it is
      refreshed exactly if in addition half its window is over and its expiry can still
      move; and what is handed out differs in the expiry alone, which is an idle window
      from now or the hard deadline, whichever comes first. */
  lemma TokenAnswers(w: World, i: nat, now: Instant)
    requires Inv(w) && i < |w.issued| && now >= w.clock
    ensures var t := w.issued[i].tok;
            var u := t.(exp := if now + w.cfg.idle <= t.hard then now + w.cfg.idle else t.hard);
            && (Verifies(w.revoked, t, now) <==> Live(w, t, now))
            && Renew(w.cfg, w.revoked, t, now) ==
                 (if t.hard == 0 then NotRenewable
                  else if Live(w, t, now) && now < t.hard then Renewed(u) else Invalid)
            && Refresh(w.cfg, w.revoked, t, now) ==
                 (if t.hard != 0 && Live(w, t, now) && now < t.hard && 2 * (t.exp - now) <= w.cfg.idle && t.exp < t.hard
                  then Some(u) else None)
            && (Revoke(w.revoked, t, now).Some? <==> now <= t.exp)
  {
    hide TokensOk, LinksOk;
    RecordedUntil(w, w.issued[i].tok.sid, now);
    hide RecordsOk;
  }

  /** Which steps issue a token, and what the history records of it: the token handed out,
      the time, the token it was made from, and one more refresh for a refresh. */
  lemma IssuedExact(w: World, ev: Event)
    requires Inv(w) && Enabled(w, ev)
    ensures var v := Apply(w, ev);
            match ev
            case RenewTok(i, now) =>
              var r := Renew(w.cfg, w.revoked, w.issued[i].tok, now);
              v.issued == w.issued + (if r.Renewed? then [Issued(r.token, now, w.issued[i].refreshes, Some(i))] else [])
            case RefreshTok(i, now) =>
              var r := Refresh(w.cfg, w.revoked, w.issued[i].tok, now);
              v.issued == w.issued +
                          (if r.Some? then [Issued(r.value, now, w.issued[i].refreshes + 1, Some(i))] else [])
            case StepUp(i, _, _, sid, now) =>
              && |v.issued| == |w.issued| + 1 && w.issued <= v.issued
              && var x := v.issued[|w.issued|];
                 x == Issued(x.tok, now, 0, Some(i)) && x.tok.sid == sid && x.tok.exp == now + w.cfg.idle
            case Mint(sid, _, _, now) =>
              && |v.issued| == |w.issued| + 1 && w.issued <= v.issued
              && var x := v.issued[|w.issued|];
                 x == Issued(x.tok, now, 0, None) && x.tok.sid == sid && x.tok.exp == now + w.cfg.idle
            case _ => v.issued == w.issued
  {
    hide TokensOk, LinksOk, RecordsOk;
  }

  lemma RecordedUntil(w: World, sid: Sid, now: Instant)
    requires RecordsOk(w.revoked, w.deadlines, w.clock) && now >= w.clock
    ensures IsRevoked(w.revoked, sid, now) <==> sid in w.deadlines && now <= w.deadlines[sid]
  {
  }

  lemma {:induction false} BornKept(w: World, evs: seq<Event>, sid: Sid)
    requires Inv(w) && Legal(w, evs) && sid in w.born
    ensures sid in Run(w, evs).born && Run(w, evs).born[sid] == w.born[sid]
    decreases |evs|
  {
    hide TokensOk, LinksOk, RecordsOk;
    if |evs| > 0 {
      BornKept(Next(w, evs[0]), evs[1..], sid);
    }
  }

  /** What every token of a session says, over every later history, from the sign-in or the
      step-up that began it: the principal, the claims as given, and the hard deadline. A
      sign-in sets the authentication time; a step-up adds its factor, names its
      credential, and carries everything else over from the token it started from. */
  lemma ChainClaims(w: World, ev: Event, evs: seq<Event>, j: nat)
    requires Inv(w) && Enabled(w, ev) && (ev.Mint? || ev.StepUp?) && Legal(Next(w, ev), evs)
    requires j < |Run(Next(w, ev), evs).issued| && Run(Next(w, ev), evs).issued[j].tok.sid == ev.sid
    ensures BegunBy(w, ev, Run(Next(w, ev), evs).issued[j].tok)
  {
    hide TokensOk, LinksOk, RecordsOk, BegunBy;
    Begins(w, ev);
    BornKept(Next(w, ev), evs, ev.sid);
    FromFirst(Run(Next(w, ev), evs), j);
    BegunAlike(w, ev, Next(w, ev).born[ev.sid].first, Run(Next(w, ev), evs).issued[j].tok);
  }

  ghost predicate BegunBy(w: World, ev: Event, t: Token)
    requires Enabled(w, ev) && (ev.Mint? || ev.StepUp?)
  {
    && t.hard == (if w.cfg.max > 0 then ev.now + w.cfg.max else 0)
    && (ev.Mint? ==>
          && t.principal == ev.principal
          && Carries(t.claims, ev.c, ev.c.credId, At(ev.now))
          && t.claims.factors == ev.c.factors && t.claims.rot == ev.c.rot)
    && (ev.StepUp? ==>
          var p := w.issued[ev.i].tok;
          && t.principal == p.principal
          && Carries(t.claims, p.claims, ev.cred, p.claims.authTime)
          && (forall k :: 0 <= k < 16 ==> t.claims.factors[k] == (p.claims.factors[k] || ev.add[k]))
          && t.claims.rot == 0)
  }

  lemma BegunAlike(w: World, ev: Event, t: Token, u: Token)
    requires Enabled(w, ev) && (ev.Mint? || ev.StepUp?) && BegunBy(w, ev, t) && u == t.(exp := u.exp)
    ensures BegunBy(w, ev, u)
  {
  }

  lemma Begins(w: World, ev: Event)
    requires Inv(w) && Enabled(w, ev) && (ev.Mint? || ev.StepUp?)
    ensures var v := Apply(w, ev); ev.sid in v.born && BegunBy(w, ev, v.born[ev.sid].first)
  {
    hide TokensOk, LinksOk, RecordsOk, Normal, MintToken, StepUpClaims;
    if ev.StepUp? {
      var p := w.issued[ev.i].tok;
      TokenTimes(w, ev.i);
      StepUpCarries(p.claims, ev.add, ev.cred);
      MintCarries(w.cfg, ev.sid, p.principal, StepUpClaims(p.claims, ev.add, ev.cred), ev.now);
    } else {
      MintCarries(w.cfg, ev.sid, ev.principal, ev.c, ev.now);
    }
  }

  lemma MintCarries(cfg: Settings, sid: Sid, principal: seq<byte>, c: Claims, now: Instant)
    requires c.authTime != At(0) && now != 0
    ensures var t := Normal(MintToken(cfg, sid, principal, c, now));
            && t.sid == sid && t.principal == principal && t.hard == (if cfg.max > 0 then now + cfg.max else 0)
            && Carries(t.claims, c, c.credId, if c.authTime.Zero? then At(now) else c.authTime)
            && t.claims.factors == c.factors && t.claims.rot == c.rot
  {
  }

  lemma StepUpCarries(c: Claims, add: Flags, cred: seq<byte>)
    ensures var d := StepUpClaims(c, add, cred);
            && d.tier == c.tier && d.scope == c.scope && d.authTime == c.authTime && d.notBefore == c.notBefore
            && d.credId == cred && d.rot == 0
            && (forall k :: 0 <= k < 16 ==> d.factors[k] == (c.factors[k] || add[k]))
  {
  }

  lemma FromFirst(w: World, j: nat)
    requires Inv(w) && j < |w.issued|
    ensures var t := w.issued[j].tok; t.sid in w.born && t == w.born[t.sid].first.(exp := t.exp)
  {
    hide LinksOk, RecordsOk;
  }

  /** The claims `d` are those of `c`, with this credential and time, as the wire keeps
      them. */
  ghost predicate Carries(d: Claims, c: Claims, cred: seq<byte>, time: Time) {
    && d.tier == c.tier && d.scope == c.scope && d.authTime == time
    && d.notBefore == (if c.notBefore == At(0) then Zero else c.notBefore)
    && (if |cred| == 16 then d.credId == cred else |d.credId| == 16 && forall k <- d.credId :: k == 0)
  }

  /** Along a renewal chain identity, claims and hard deadline are frozen, the expiry
      never shrinks and never passes the hard deadline; and a chain can hold only so
      many refreshes: n of them take n half-windows, less than the maximum life. */
  lemma ChainBounded(cfg: Settings, clock: Instant, evs: seq<Event>, i: nat)
    requires cfg.Valid() && clock > 0 && Legal(Start(cfg, clock), evs)
    requires i < |Run(Start(cfg, clock), evs).issued|
    ensures var x := Run(Start(cfg, clock), evs).issued[i];
            && (x.tok.hard != 0 ==> x.tok.exp <= x.tok.hard && x.refreshes * cfg.Half() < cfg.max)
            && (x.tok.hard == 0 ==> x.refreshes == 0)
            && (x.parent.Some? ==>
                  && x.parent.value < i
                  && var p := Run(Start(cfg, clock), evs).issued[x.parent.value];
                     p.tok.sid == x.tok.sid ==>
                       x.tok == p.tok.(exp := x.tok.exp) && p.tok.exp <= x.tok.exp)
  {
    hide RecordsOk;
    var w := Run(Start(cfg, clock), evs);
    RunGrows(Start(cfg, clock), evs);
    hide Run, Legal;
    var x := w.issued[i];
    assert LinkOk(w.issued, i);
    hide LinksOk;
    assert TokenOk(w.cfg, w.clock, w.born[x.tok.sid], x) && BornOk(w.cfg, w.clock, w.born[x.tok.sid]);
    hide TokensOk, TokenOk, BornOk;
    TokenBounded(w.cfg, w.clock, w.born[x.tok.sid], x);
  }

  lemma TokenBounded(cfg: Settings, clock: Instant, b: Born, x: Issued)
    requires cfg.Valid() && BornOk(cfg, clock, b) && TokenOk(cfg, clock, b, x)
    ensures x.tok.hard != 0 ==> x.tok.exp <= x.tok.hard && x.refreshes * cfg.Half() < cfg.max
    ensures x.tok.hard == 0 ==> x.refreshes == 0
  {
  }

  // ---- Step-up and recency ----

  /** Token `j` was made from token `i` by renewals, refreshes and step-ups. */
  ghost predicate Derives(issued: seq<Issued>, i: nat, j: nat)
    requires LinksOk(issued) && j < |issued|
    decreases j
  {
    i == j || (assert LinkOk(issued, j); issued[j].parent.Some? && Derives(issued, i, issued[j].parent.value))
  }

  lemma {:induction false} DerivedTime(issued: seq<Issued>, i: nat, j: nat)
    requires LinksOk(issued) && i < |issued| && j < |issued| && Derives(issued, i, j)
    ensures issued[j].tok.claims.authTime == issued[i].tok.claims.authTime
    decreases j
  {
    if i != j {
      assert LinkOk(issued, j);
      DerivedTime(issued, i, issued[j].parent.value);
    }
  }

  /** No permanent sudo. Once the recency window of a token has lapsed under a policy,
      no token made from it by any mix of renewals, refreshes and step-ups, in any
      further history, passes a gate beyond data writes at any later time. */
  lemma StaleForever(w: World, evs: seq<Event>, i: nat, j: nat, policy: Policy, action: Action, at: Instant,
                     now: Instant)
    requires Inv(w) && Legal(w, evs) && i < |w.issued|
    requires Lapsed(w.issued[i].tok.claims, policy, at) && at <= now
    requires j < |Run(w, evs).issued| && Derives(Run(w, evs).issued, i, j) && action != DataWrite
    ensures Gate(Some(Run(w, evs).issued[j].tok.claims), action, policy, now) != Permitted
  {
    var v := Run(w, evs);
    RunGrows(w, evs);
    assert v.issued[i] == w.issued[i];
    DerivedTime(v.issued, i, j);
    hide TokensOk, LinksOk, RecordsOk;
    LapsedStays(w.issued[i].tok.claims, v.issued[j].tok.claims, policy, at, now);
    GateMeaning(v.issued[j].tok.claims, action, policy, now);
  }

  /** The token a step-up from claims `c` issues, as it is read back. */
  ghost function SteppedUp(cfg: Settings, sid: Sid, principal: seq<byte>, c: Claims, add: Flags, cred: seq<byte>,
                           now: Instant): Token
  {
    Normal(MintToken(cfg, sid, principal, StepUpClaims(c, add, cred), now))
  }

  /** Step-up keeps the authentication time exactly when its wire form is not zero. Both
      the missing time and the Unix epoch have the zero form; `TokenTimes` shows that no
      issued token has either. */
  lemma StepUpFreezes(cfg: Settings, sid: Sid, principal: seq<byte>, c: Claims, add: Flags, cred: seq<byte>,
                      now: Instant)
    requires now != 0
    ensures SteppedUp(cfg, sid, principal, c, add, cred, now).claims.authTime == c.authTime <==> Nanos(c.authTime) != 0
  {
  }

  /** The failing inputs: a missing time becomes the present at once, and the epoch is
      lost on the way and becomes the present at the next step-up. */
  lemma StepUpThaws(cfg: Settings, sid: Sid, principal: seq<byte>, c: Claims, add: Flags, cred: seq<byte>,
                    now: Instant, sid': Sid, now': Instant)
    requires now != 0 && now' != 0
    ensures c.authTime == Zero ==> SteppedUp(cfg, sid, principal, c, add, cred, now).claims.authTime == At(now)
    ensures c.authTime == At(0) ==>
              var t := SteppedUp(cfg, sid, principal, c, add, cred, now);
              && t.claims.authTime == Zero
              && SteppedUp(cfg, sid', principal, t.claims, add, cred, now').claims.authTime == At(now')
  {
  }

  // ---- On the wire ----

  /** The record-level steps are what the bytes do: what a renewal or refresh returns for a
      token read from bytes, issued and read again, is the same token, claims and all. */
  lemma SlideOnWire(cfg: Settings, revoked: Revocations, raw: seq<byte>, sign: seq<byte> -> Mac, now: Instant)
    requires cfg.Valid() && now >= 0 && Parse(raw, sign).Some?
    ensures var r := Renew(cfg, revoked, Parse(raw, sign).value, now);
            r.Renewed? ==> Encodable(r.token) && Parse(Wire(r.token, sign), sign) == Some(r.token)
    ensures var r := Refresh(cfg, revoked, Parse(raw, sign).value, now);
            r.Some? ==> Encodable(r.value) && Parse(Wire(r.value, sign), sign) == Some(r.value)
  {
    hide Parse, Wire, Encodable, Normal;
    IssueParsed(raw, sign);
    var t := Parse(raw, sign).value;
    if Renew(cfg, revoked, t, now).Renewed? {
      SlidWire(t, Renew(cfg, revoked, t, now).token, sign);
    }
    if Refresh(cfg, revoked, t, now).Some? {
      SlidWire(t, Refresh(cfg, revoked, t, now).value, sign);
    }
  }

  lemma SlidWire(t: Token, u: Token, sign: seq<byte> -> Mac)
    requires Encodable(t) && Normal(t) == t && |t.principal| > 0 && u == t.(exp := u.exp) && 0 <= u.exp <= t.hard
    ensures Encodable(u) && Parse(Wire(u, sign), sign) == Some(u)
  {
    ParseIssued(u, sign);
    hide Parse, Wire;
    assert Normal(u).claims == Normal(t).claims;
  }
}
