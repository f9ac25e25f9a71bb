/** The assurance gate for account-management actions (authz/assurance.go). */
module Assurance {
  import opened Basics
  import opened Bytes
  import opened TokenCodec

  const TIER_OWNER := 1
  const SCOPE_REDUCED := 1
  const FACTOR_RECOVERY: Flags := Bit({4})
  /** WebAuthn, device key and recovery key. */
  const STRICT_FACTORS: Flags := Bit({2, 3, 4})
  const DEFAULT_WINDOW := 600_000_000_000
  const MAX_DURATION := TWO_TO_63 - 1

  datatype Action = DataWrite | CredentialMgmt | Destructive | RecoveryRoot
  datatype Policy = Policy(credentialMgmt: Flags, destructive: Flags, window: int)
  datatype Verdict = Permitted | OwnerRequired | StepUpRequired | ScopeIsReduced

  function Bit(on: set<int>): Flags {
    seq(16, i => i in on)
  }

  function Join(f: Flags, g: Flags): Flags {
    seq(16, i requires 0 <= i < 16 => f[i] || g[i])
  }

  predicate Meets(f: Flags, need: Flags) {
    exists i :: 0 <= i < 16 && f[i] && need[i]
  }

  /** `now.Sub(t)`: saturates, as Go durations do; the zero time is further away than
      any duration. */
  function Since(now: Instant, t: Time): int {
    if t.Zero? || now - t.ns > MAX_DURATION then MAX_DURATION
    else if now - t.ns < -MAX_DURATION - 1 then -MAX_DURATION - 1
    else now - t.ns
  }

  predicate Before(now: Instant, t: Time) {
    t.At? && now < t.ns
  }

  function WithDefaults(p: Policy): Policy {
    Policy(
      if p.credentialMgmt == Bit({}) then STRICT_FACTORS else p.credentialMgmt,
      if p.destructive == Bit({}) then STRICT_FACTORS else p.destructive,
      if p.window == 0 then DEFAULT_WINDOW else p.window)
  }

  /** `RequireAssurance`; a principal without a session has no claims. */
  function Gate(a: Option<Claims>, action: Action, policy: Policy, now: Instant): Verdict {
    if action == DataWrite then Permitted
    else if a.None? then OwnerRequired
    else
      var c := a.value;
      var p := WithDefaults(policy);
      if action == RecoveryRoot then
        if !Meets(c.factors, FACTOR_RECOVERY) || c.scope == SCOPE_REDUCED then StepUpRequired
        else if Since(now, c.authTime) > p.window then StepUpRequired
        else Permitted
      else if c.tier < TIER_OWNER then OwnerRequired
      else if c.scope == SCOPE_REDUCED && Before(now, c.notBefore) then ScopeIsReduced
      else
        var need := if action == Destructive then p.destructive else p.credentialMgmt;
        if !Meets(c.factors, need) || Since(now, c.authTime) > p.window then StepUpRequired else Permitted
  }

  /** The recency window of these claims has passed. */
  predicate Lapsed(c: Claims, policy: Policy, now: Instant) {
    Since(now, c.authTime) > WithDefaults(policy).window
  }

  function Needed(action: Action, policy: Policy): Flags {
    if action == RecoveryRoot then FACTOR_RECOVERY
    else if action == Destructive then WithDefaults(policy).destructive
    else WithDefaults(policy).credentialMgmt
  }

  /** What the gate demands, read off in one place: an action beyond data writes is
      permitted exactly for a fresh session with the right factors, tier and scope. */
  lemma GateMeaning(c: Claims, action: Action, policy: Policy, now: Instant)
    requires action != DataWrite
    ensures Gate(Some(c), action, policy, now) == Permitted <==>
              && !Lapsed(c, policy, now)
              && Meets(c.factors, Needed(action, policy))
              && (action == RecoveryRoot ==> c.scope != SCOPE_REDUCED)
              && (action != RecoveryRoot ==>
                    c.tier >= TIER_OWNER && (c.scope == SCOPE_REDUCED ==> !Before(now, c.notBefore)))
  {
  }

  /** Lapsed once, lapsed ever after, for any claims that carry the same time. */
  lemma LapsedStays(c: Claims, d: Claims, policy: Policy, at: Instant, now: Instant)
    requires Lapsed(c, policy, at) && at <= now && d.authTime == c.authTime
    ensures Lapsed(d, policy, now)
  {
  }

  /** Recent enough: signed in no longer ago than the window, ten minutes unless set. The
      largest window is no limit, and a missing sign-in time is older than any other. */
  ghost predicate Recent(c: Claims, policy: Policy, now: Instant) {
    var window := if policy.window == 0 then 600_000_000_000 else policy.window;
    window == 0x7fff_ffff_ffff_ffff || (c.authTime.At? && now <= c.authTime.ns + window)
  }

  /** A factor among those the policy names, or among WebAuthn, device key and recovery
      key (bits 2 to 4) if it names none. */
  ghost predicate Proven(c: Claims, named: Flags) {
    if forall i :: 0 <= i < 16 ==> !named[i] then c.factors[2] || c.factors[3] || c.factors[4]
    else exists i :: 0 <= i < 16 && c.factors[i] && named[i]
  }

  lemma RecentExact(c: Claims, policy: Policy, now: Instant)
    requires IsInt64(policy.window)
    ensures Recent(c, policy, now) <==> !Lapsed(c, policy, now)
  {
  }

  lemma ProvenExact(c: Claims, named: Flags)
    ensures Proven(c, named) <==> Meets(c.factors, if named == Bit({}) then STRICT_FACTORS else named)
  {
    if forall i :: 0 <= i < 16 ==> !named[i] {
      assert named == Bit({});
      if c.factors[2] || c.factors[3] || c.factors[4] {
        var i := if c.factors[2] then 2 else if c.factors[3] then 3 else 4;
        assert c.factors[i] && STRICT_FACTORS[i];
      }
    } else {
      var i :| 0 <= i < 16 && named[i];
      assert !Bit({})[i];
    }
  }

  lemma RecoveryExact(c: Claims)
    ensures Meets(c.factors, FACTOR_RECOVERY) <==> c.factors[4]
  {
    assert FACTOR_RECOVERY[4];
  }

  /** Every verdict of the gate, for every action, written out. */
  lemma GateExact(a: Option<Claims>, action: Action, policy: Policy, now: Instant)
    requires IsInt64(policy.window)
    ensures Gate(a, action, policy, now) ==
              if action == DataWrite then Permitted
              else if a.None? then OwnerRequired
              else
                var c := a.value;
                if action == RecoveryRoot then
                  (if c.factors[4] && c.scope != 1 && Recent(c, policy, now) then Permitted else StepUpRequired)
                else if c.tier < 1 then OwnerRequired
                else if c.scope == 1 && c.notBefore.At? && now < c.notBefore.ns then ScopeIsReduced
                else if Recent(c, policy, now)
                        && Proven(c, if action == Destructive then policy.destructive else policy.credentialMgmt)
                then Permitted
                else StepUpRequired
  {
    if a.Some? {
      RecentExact(a.value, policy, now);
      RecoveryExact(a.value);
      ProvenExact(a.value, policy.destructive);
      ProvenExact(a.value, policy.credentialMgmt);
      hide Recent, Proven, Since, Meets, Bit;
    }
  }
}
