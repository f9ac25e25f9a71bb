/** Minting, sliding and revoking session tokens (auth/session.go), and step-up
    (auth/auth.go). Each call reads the clock once. */
module Minter {
  import opened Basics
  import opened Bytes
  import opened TokenCodec
  import opened Assurance

  type Sid = seq<byte>

  /** `idle` is each token's validity; `max`, when positive, makes tokens renewable
      up to that long after the first mint. */
  datatype Settings = Settings(idle: int, max: int) {
    /** What configuration validation accepts. */
    predicate Valid() {
      idle > 0 && (max == 0 || max >= idle)
    }

    /** Half the idle window, rounded up. */
    function Half(): int {
      idle - idle / 2
    }
  }

  type Revocations = map<Sid, Instant>

  datatype RenewResult = NotRenewable | Invalid | Renewed(token: Token)

  function MintToken(cfg: Settings, sid: Sid, principal: seq<byte>, c: Claims, now: Instant): Token {
    Token(sid, now + cfg.idle, if cfg.max > 0 then now + cfg.max else 0, principal,
          if c.authTime.Zero? then c.(authTime := At(now)) else c)
  }

  /** `MintStepUp`: add a factor, carry everything else including the old time. */
  function StepUpClaims(prev: Claims, add: Flags, cred: seq<byte>): Claims {
    Claims(prev.tier, prev.scope, Join(prev.factors, add), 0, cred, prev.authTime, prev.notBefore)
  }

  predicate IsRevoked(revoked: Revocations, sid: Sid, now: Instant) {
    sid in revoked && now <= revoked[sid]
  }

  predicate Verifies(revoked: Revocations, t: Token, now: Instant) {
    now <= t.exp && !IsRevoked(revoked, t.sid, now)
  }

  function Extend(cfg: Settings, t: Token, now: Instant): Token {
    t.(exp := if now + cfg.idle > t.hard then t.hard else now + cfg.idle)
  }

  function Renew(cfg: Settings, revoked: Revocations, t: Token, now: Instant): RenewResult {
    if t.hard == 0 then NotRenewable
    else if now > t.exp || now >= t.hard then Invalid
    else if IsRevoked(revoked, t.sid, now) then Invalid
    else Renewed(Extend(cfg, t, now))
  }

  function Refresh(cfg: Settings, revoked: Revocations, t: Token, now: Instant): Option<Token>
    requires cfg.idle > 0
  {
    if t.hard == 0 || now > t.exp || now >= t.hard then None
    else if t.exp - now > cfg.idle / 2 || t.exp >= t.hard then None
    else if IsRevoked(revoked, t.sid, now) then None
    else Some(Extend(cfg, t, now))
  }

  /** Self-service logout; `None` when the presented token has itself expired. */
  function Revoke(revoked: Revocations, t: Token, now: Instant): Option<Revocations> {
    if now > t.exp then None
    else Some(Swept(revoked, now)[t.sid := if t.exp > t.hard then t.exp else t.hard])
  }

  function Swept(revoked: Revocations, now: Instant): Revocations {
    map sid | sid in revoked && now <= revoked[sid] :: revoked[sid]
  }

  function RevokeSids(revoked: Revocations, sids: map<Sid, Instant>, except: Option<Sid>): Revocations {
    revoked + (if except.Some? then sids - {except.value} else sids)
  }

  function RevokeOne(cfg: Settings, revoked: Revocations, sid: Sid, now: Instant): Revocations {
    RevokeSids(revoked, map[sid := now + cfg.idle + cfg.max], None)
  }

  // ---- The minter object ----

  class SessionMinter {
    const cfg: Settings
    var revoked: Revocations

    constructor (idle: int, max: int)
      ensures cfg == Settings(idle, max) && revoked == map[]
    {
      cfg := Settings(idle, max);
      revoked := map[];
    }

    /** Records the session until its outer deadline, sweeping entries already past. */
    method RevokeToken(t: Token, now: Instant) returns (ok: bool)
      modifies this
      ensures ok == Revoke(old(revoked), t, now).Some?
      ensures revoked == (if ok then Revoke(old(revoked), t, now).value else old(revoked))
    {
      if now > t.exp {
        return false;
      }
      var until := if t.exp > t.hard then t.exp else t.hard;
      var todo := revoked.Keys;
      while todo != {}
        invariant todo <= old(revoked).Keys
        invariant forall s :: s in revoked <==> s in old(revoked) && (s in todo || now <= old(revoked)[s])
        invariant forall s <- revoked :: revoked[s] == old(revoked)[s]
      {
        var s :| s in todo;
        todo := todo - {s};
        if now > revoked[s] {
          revoked := revoked - {s};
        }
      }
      assert revoked == Swept(old(revoked), now);
      revoked := revoked[t.sid := until];
      ok := true;
    }

    method RevokeMany(sids: map<Sid, Instant>, except: Option<Sid>)
      modifies this
      ensures revoked == RevokeSids(old(revoked), sids, except)
    {
      var todo := sids.Keys;
      ghost var all := if except.Some? then sids - {except.value} else sids;
      while todo != {}
        invariant todo <= sids.Keys
        invariant revoked == old(revoked) + (all - todo)
      {
        var s :| s in todo;
        ghost var left := todo;
        todo := todo - {s};
        if except == Some(s) {
          assert all - todo == all - left;
        } else {
          revoked := revoked[s := sids[s]];
          assert all - todo == (all - left)[s := sids[s]];
        }
      }
      assert all - todo == all;
    }
  }
}
