/** The session token on the wire (auth/session.go): a fixed 71-byte header, the
    variable principal, and a trailing MAC. Base64 and the `st_` prefix around these
    bytes are not modelled. */
module TokenCodec {
  import opened Basics
  import opened Bytes

  /** Go's `time.Time`: the zero time, or an instant. */
  datatype Time = Zero | At(ns: int)

  datatype Claims = Claims(
    tier: int,
    scope: int,
    factors: Flags,
    rot: int,
    credId: seq<byte>,
    authTime: Time,
    notBefore: Time)

  /** `hard` is zero for a token that cannot be renewed. */
  datatype Token = Token(sid: seq<byte>, exp: int, hard: int, principal: seq<byte>, claims: Claims)

  const TOKEN_VERSION: byte := 1
  const OFF_SID := 1
  const OFF_EXP := 17
  const OFF_HARD := 25
  const OFF_AUTH_TIME := 33
  const OFF_NOT_BEFORE := 41
  const OFF_TIER := 49
  const OFF_SCOPE := 50
  const OFF_FACTORS := 51
  const OFF_ROT := 53
  const OFF_CRED := 55
  const HEADER_LEN := 71
  const MAC_LEN := 32

  function Nanos(t: Time): int {
    if t.Zero? then 0 else t.ns
  }

  function FromNanos(n: int): Time {
    if n == 0 then Zero else At(n)
  }

  /** Values the fixed-width fields can hold: what Go's own types guarantee. */
  ghost predicate Encodable(t: Token) {
    && |t.sid| == 16 && IsInt64(t.exp) && IsInt64(t.hard)
    && IsInt64(Nanos(t.claims.authTime)) && IsInt64(Nanos(t.claims.notBefore))
    && 0 <= t.claims.tier < 0x100 && 0 <= t.claims.scope < 0x100 && 0 <= t.claims.rot < 0x1_0000
  }

  const ZEROS: seq<byte> := [0, 0, 0, 0, 0, 0, 0, 0, 0, 0, 0, 0, 0, 0, 0, 0]

  ghost function Cred(c: Claims): (s: seq<byte>)
    ensures |s| == 16
  {
    if |c.credId| == 16 then c.credId else ZEROS
  }

  /** The header as a concatenation of its fields, in wire order: identity and
      deadlines (33 bytes), assurance times (16), assurance claims (22). */
  ghost function Header(t: Token): (s: seq<byte>)
    requires Encodable(t)
    ensures |s| == HEADER_LEN
  {
    Identity(t) + Times(t.claims) + Rest(t.claims)
  }

  ghost function Identity(t: Token): (s: seq<byte>)
    requires Encodable(t)
    ensures |s| == OFF_AUTH_TIME
  {
    [TOKEN_VERSION] + t.sid + PutInt64(t.exp) + PutInt64(t.hard)
  }

  ghost function Times(c: Claims): (s: seq<byte>)
    requires IsInt64(Nanos(c.authTime)) && IsInt64(Nanos(c.notBefore))
    ensures |s| == OFF_TIER - OFF_AUTH_TIME
  {
    PutInt64(Nanos(c.authTime)) + PutInt64(Nanos(c.notBefore))
  }

  ghost function Rest(c: Claims): (s: seq<byte>)
    requires 0 <= c.tier < 0x100 && 0 <= c.scope < 0x100 && 0 <= c.rot < 0x1_0000
    ensures |s| == HEADER_LEN - OFF_TIER
  {
    Factors(c) + Cred(c)
  }

  ghost function Factors(c: Claims): (s: seq<byte>)
    requires 0 <= c.tier < 0x100 && 0 <= c.scope < 0x100 && 0 <= c.rot < 0x1_0000
    ensures |s| == OFF_CRED - OFF_TIER
  {
    [c.tier] + [c.scope] + PutFlags(c.factors) + PutUint16(c.rot)
  }

  ghost function Wire(t: Token, sign: seq<byte> -> Mac): seq<byte>
    requires Encodable(t)
  {
    Header(t) + t.principal + sign(Header(t) + t.principal)
  }

  function Parse(raw: seq<byte>, sign: seq<byte> -> Mac): Option<Token> {
    if |raw| < HEADER_LEN + 1 + MAC_LEN || raw[0] != TOKEN_VERSION then None
    else
      var payload := raw[..|raw| - MAC_LEN];
      if raw[|raw| - MAC_LEN..] != sign(payload) then None
      else Some(ParsePayload(payload))
  }

  function ParsePayload(payload: seq<byte>): Token
    requires |payload| >= HEADER_LEN
  {
    Token(
      payload[OFF_SID..OFF_EXP],
      GetInt64(payload[OFF_EXP..OFF_HARD]),
      GetInt64(payload[OFF_HARD..OFF_AUTH_TIME]),
      payload[HEADER_LEN..],
      ParseClaims(payload))
  }

  function ParseClaims(payload: seq<byte>): Claims
    requires |payload| >= HEADER_LEN
  {
    Widths();
    Claims(
      payload[OFF_TIER],
      payload[OFF_SCOPE],
      GetFlags(payload[OFF_FACTORS..OFF_ROT]),
      Value(payload[OFF_ROT..OFF_CRED]),
      payload[OFF_CRED..HEADER_LEN],
      FromNanos(GetInt64(payload[OFF_AUTH_TIME..OFF_NOT_BEFORE])),
      FromNanos(GetInt64(payload[OFF_NOT_BEFORE..OFF_TIER])))
  }

  // ---- Building the token in a buffer, as the source does ----

  /** `copy(buf[off:], s)`: bytes before and after the target range are untouched. */
  method Put(buf: array<byte>, off: nat, s: seq<byte>)
    requires off + |s| <= buf.Length
    modifies buf
    ensures buf[..off + |s|] == old(buf[..off]) + s
    ensures buf[off + |s|..] == old(buf[off + |s|..])
    ensures forall i :: off + |s| <= i < buf.Length ==> buf[i] == old(buf[i])
  {
    for i := 0 to |s|
      invariant buf[..off + i] == old(buf[..off]) + s[..i]
      invariant forall j :: off + i <= j < buf.Length ==> buf[j] == old(buf[j])
    {
      buf[off + i] := s[i];
    }
  }

  method PutIdentity(buf: array<byte>, t: Token)
    requires Encodable(t) && buf.Length == HEADER_LEN
    modifies buf
    ensures buf[..OFF_AUTH_TIME] == Identity(t)
    ensures buf[OFF_AUTH_TIME..] == old(buf[OFF_AUTH_TIME..])
  {
    Put(buf, 0, [TOKEN_VERSION]);
    Put(buf, OFF_SID, t.sid);
    Put(buf, OFF_EXP, PutInt64(t.exp));
    ghost var tail := buf[OFF_HARD..];
    Put(buf, OFF_HARD, PutInt64(t.hard));
    assert buf[OFF_AUTH_TIME..] == tail[8..];
  }

  method PutTimes(buf: array<byte>, c: Claims)
    requires IsInt64(Nanos(c.authTime)) && IsInt64(Nanos(c.notBefore)) && buf.Length == HEADER_LEN
    modifies buf
    ensures buf[..OFF_TIER] == old(buf[..OFF_AUTH_TIME]) + Times(c)
    ensures buf[OFF_TIER..] == old(buf[OFF_TIER..])
  {
    Put(buf, OFF_AUTH_TIME, PutInt64(Nanos(c.authTime)));
    Put(buf, OFF_NOT_BEFORE, PutInt64(Nanos(c.notBefore)));
  }

  method PutFactors(buf: array<byte>, c: Claims)
    requires 0 <= c.tier < 0x100 && 0 <= c.scope < 0x100 && 0 <= c.rot < 0x1_0000 && buf.Length == HEADER_LEN
    modifies buf
    ensures buf[..OFF_CRED] == old(buf[..OFF_TIER]) + Factors(c)
    ensures buf[OFF_CRED..] == old(buf[OFF_CRED..])
  {
    hide PutFlags, PutUint16;
    Put(buf, OFF_TIER, [c.tier]);
    Put(buf, OFF_SCOPE, [c.scope]);
    Put(buf, OFF_FACTORS, PutFlags(c.factors));
    Put(buf, OFF_ROT, PutUint16(c.rot));
  }

  method PutCred(buf: array<byte>, c: Claims)
    requires buf.Length == HEADER_LEN && buf[OFF_CRED..] == ZEROS
    modifies buf
    ensures buf[..] == old(buf[..OFF_CRED]) + Cred(c)
  {
    if |c.credId| == 16 {
      Put(buf, OFF_CRED, c.credId);
      assert buf[..] == buf[..OFF_CRED + 16];
    } else {
      assert buf[..] == buf[..OFF_CRED] + buf[OFF_CRED..];
    }
  }

  method PutRest(buf: array<byte>, c: Claims)
    requires 0 <= c.tier < 0x100 && 0 <= c.scope < 0x100 && 0 <= c.rot < 0x1_0000 && buf.Length == HEADER_LEN
    requires buf[OFF_CRED..] == ZEROS
    modifies buf
    ensures buf[..] == old(buf[..OFF_TIER]) + Rest(c)
  {
    hide Factors, Cred;
    PutFactors(buf, c);
    PutCred(buf, c);
  }

  /** The token built in place, field by field at its offset. */
  method Issue(t: Token, sign: seq<byte> -> Mac) returns (raw: seq<byte>)
    requires Encodable(t)
    ensures raw == Wire(t, sign)
  {
    var payload := new byte[HEADER_LEN](i => 0);
    ghost var blank := payload[..];
    PutIdentity(payload, t);
    PutTimes(payload, t.claims);
    assert payload[OFF_CRED..] == payload[OFF_TIER..][OFF_CRED - OFF_TIER..] == blank[OFF_CRED..];
    assert blank[OFF_CRED..] == ZEROS;
    PutRest(payload, t.claims);
    var body := payload[..] + t.principal;
    raw := body + sign(body);
  }

  // ---- Round trips ----

  /** What the wire keeps of a token: a credential id of the wrong length becomes
      sixteen zero bytes, and the Unix epoch is read back as the zero time. */
  ghost function Normal(t: Token): Token {
    t.(claims := t.claims.(
         credId := Cred(t.claims),
         authTime := FromNanos(Nanos(t.claims.authTime)),
         notBefore := FromNanos(Nanos(t.claims.notBefore))))
  }

  lemma HeaderSlices(t: Token, h: seq<byte>)
    requires Encodable(t) && h == Header(t)
    ensures h[0] == TOKEN_VERSION && h[OFF_SID..OFF_EXP] == t.sid
    ensures h[OFF_EXP..OFF_HARD] == PutInt64(t.exp) && h[OFF_HARD..OFF_AUTH_TIME] == PutInt64(t.hard)
    ensures h[OFF_AUTH_TIME..OFF_TIER] == Times(t.claims) && h[OFF_TIER..] == Rest(t.claims)
  {
    hide PutInt64, PutUint16, PutFlags;
    var i := Identity(t);
    assert h[..OFF_AUTH_TIME] == i;
    assert i[OFF_SID..OFF_EXP] == t.sid;
    assert i[OFF_EXP..OFF_HARD] == PutInt64(t.exp);
    assert i[OFF_HARD..] == PutInt64(t.hard);
    assert h[OFF_SID..OFF_EXP] == i[OFF_SID..OFF_EXP];
    assert h[OFF_EXP..OFF_HARD] == i[OFF_EXP..OFF_HARD];
    assert h[OFF_HARD..OFF_AUTH_TIME] == i[OFF_HARD..];
  }

  lemma ClaimSlices(c: Claims, h: seq<byte>)
    requires IsInt64(Nanos(c.authTime)) && IsInt64(Nanos(c.notBefore))
    requires 0 <= c.tier < 0x100 && 0 <= c.scope < 0x100 && 0 <= c.rot < 0x1_0000
    requires |h| >= HEADER_LEN && h[OFF_AUTH_TIME..OFF_TIER] == Times(c) && h[OFF_TIER..HEADER_LEN] == Rest(c)
    ensures h[OFF_AUTH_TIME..OFF_NOT_BEFORE] == PutInt64(Nanos(c.authTime))
    ensures h[OFF_NOT_BEFORE..OFF_TIER] == PutInt64(Nanos(c.notBefore))
    ensures h[OFF_TIER] == c.tier && h[OFF_SCOPE] == c.scope
    ensures h[OFF_FACTORS..OFF_ROT] == PutFlags(c.factors) && h[OFF_ROT..OFF_CRED] == PutUint16(c.rot)
    ensures h[OFF_CRED..HEADER_LEN] == Cred(c)
  {
    hide PutInt64, PutUint16, PutFlags, Times, Rest;
    TimesSlices(c);
    RestSlices(c);
    Slice(h, OFF_AUTH_TIME, OFF_TIER, OFF_AUTH_TIME, OFF_NOT_BEFORE);
    Slice(h, OFF_AUTH_TIME, OFF_TIER, OFF_NOT_BEFORE, OFF_TIER);
    Slice(h, OFF_TIER, HEADER_LEN, OFF_FACTORS, OFF_ROT);
    Slice(h, OFF_TIER, HEADER_LEN, OFF_ROT, OFF_CRED);
    Slice(h, OFF_TIER, HEADER_LEN, OFF_CRED, HEADER_LEN);
  }

  lemma Slice(h: seq<byte>, a: nat, b: nat, c: nat, d: nat)
    requires a <= c <= d <= b <= |h|
    ensures h[a..b][c - a..d - a] == h[c..d]
  {
    var inner, outer := h[a..b][c - a..d - a], h[c..d];
    assert forall i :: 0 <= i < d - c ==> inner[i] == h[a..b][c - a + i] == h[c + i] == outer[i];
  }

  lemma TimesSlices(c: Claims)
    requires IsInt64(Nanos(c.authTime)) && IsInt64(Nanos(c.notBefore))
    ensures Times(c)[0..8] == PutInt64(Nanos(c.authTime)) && Times(c)[8..16] == PutInt64(Nanos(c.notBefore))
  {
    hide PutInt64;
  }

  lemma RestSlices(c: Claims)
    requires 0 <= c.tier < 0x100 && 0 <= c.scope < 0x100 && 0 <= c.rot < 0x1_0000
    ensures var r := Rest(c);
            && r[0] == c.tier && r[1] == c.scope && r[2..4] == PutFlags(c.factors) && r[4..6] == PutUint16(c.rot)
            && r[6..22] == Cred(c)
  {
    hide PutUint16, PutFlags, Cred;
  }

  lemma ParseClaimsOfHeader(t: Token, payload: seq<byte>)
    requires Encodable(t) && |payload| >= HEADER_LEN && payload[..HEADER_LEN] == Header(t)
    ensures ParseClaims(payload) == Normal(t).claims
  {
    hide PutInt64, GetInt64, PutFlags, GetFlags, Times, Rest, Identity, Header;
    HeaderSlices(t, payload[..HEADER_LEN]);
    assert payload[OFF_AUTH_TIME..OFF_TIER] == payload[..HEADER_LEN][OFF_AUTH_TIME..OFF_TIER];
    assert payload[OFF_TIER..HEADER_LEN] == payload[..HEADER_LEN][OFF_TIER..];
    ClaimSlices(t.claims, payload);
    Int64Wire(Nanos(t.claims.authTime));
    Int64Wire(Nanos(t.claims.notBefore));
  }

  /** Reading back what was issued: every field of every encodable token, for every
      signing function. The empty principal alone is refused. */
  lemma ParseIssued(t: Token, sign: seq<byte> -> Mac)
    requires Encodable(t)
    ensures Parse(Wire(t, sign), sign) == (if |t.principal| == 0 then None else Some(Normal(t)))
  {
    hide PutInt64, GetInt64, Times, Rest, Identity, Header, ParseClaims;
    var raw := Wire(t, sign);
    var payload := Header(t) + t.principal;
    assert raw[..|raw| - MAC_LEN] == payload && raw[|raw| - MAC_LEN..] == sign(payload);
    assert payload[..HEADER_LEN] == Header(t);
    if |t.principal| > 0 {
      HeaderSlices(t, payload[..HEADER_LEN]);
      assert payload[OFF_SID..OFF_EXP] == payload[..HEADER_LEN][OFF_SID..OFF_EXP];
      assert payload[OFF_EXP..OFF_HARD] == payload[..HEADER_LEN][OFF_EXP..OFF_HARD];
      assert payload[OFF_HARD..OFF_AUTH_TIME] == payload[..HEADER_LEN][OFF_HARD..OFF_AUTH_TIME];
      Int64Wire(t.exp);
      Int64Wire(t.hard);
      ParseClaimsOfHeader(t, payload);
      assert raw[0] == payload[0] == payload[..HEADER_LEN][0];
    }
  }

  /** The round trip is the identity exactly when the credential id has its full
      length and neither claim time is the Unix epoch. */
  lemma RoundTripExact(t: Token, sign: seq<byte> -> Mac)
    requires Encodable(t) && |t.principal| > 0
    ensures Parse(Wire(t, sign), sign) == Some(t) <==>
              |t.claims.credId| == 16 && t.claims.authTime != At(0) && t.claims.notBefore != At(0)
  {
    ParseIssued(t, sign);
  }

  /** The failing inputs: the epoch comes back as the zero time, a credential id of any
      other length as sixteen zero bytes. */
  lemma LostOnWire(t: Token, sign: seq<byte> -> Mac)
    requires Encodable(t) && |t.principal| > 0
    ensures Parse(Wire(t, sign), sign).Some?
    ensures var c := Parse(Wire(t, sign), sign).value.claims;
            && (t.claims.authTime == At(0) ==> c.authTime == Zero)
            && (t.claims.notBefore == At(0) ==> c.notBefore == Zero)
            && (|t.claims.credId| != 16 ==> c.credId == ZEROS)
  {
    ParseIssued(t, sign);
    hide Parse, Wire;
  }

  /** Where each field lies, byte by byte: version, session id, expiry, hard deadline, the
      two claim times, tier, scope, factors, rotation and credential fill the first 71
      bytes, then comes the principal, then the code over all of it. */
  lemma WireLayout(t: Token, sign: seq<byte> -> Mac)
    requires Encodable(t)
    ensures var raw := Wire(t, sign); var n := 71 + |t.principal|;
            && |raw| == n + 32 && raw[n..] == sign(raw[..n])
            && raw[0] == 1 && raw[1..17] == t.sid
            && raw[17..25] == PutInt64(t.exp) && raw[25..33] == PutInt64(t.hard)
            && raw[33..41] == PutInt64(Nanos(t.claims.authTime)) && raw[41..49] == PutInt64(Nanos(t.claims.notBefore))
            && raw[49] == t.claims.tier && raw[50] == t.claims.scope
            && raw[51..53] == PutFlags(t.claims.factors) && raw[53..55] == PutUint16(t.claims.rot)
            && raw[55..71] == Cred(t.claims) && raw[71..n] == t.principal
  {
    hide PutInt64, PutFlags, PutUint16, Cred, Times, Rest, Identity, Header, Wire;
    WireParts(t, sign);
    var raw := Wire(t, sign);
    HeaderSlices(t, raw[..71]);
    ClaimSlices(t.claims, raw);
    Slice(raw, 0, 71, 1, 17);
    Slice(raw, 0, 71, 17, 25);
    Slice(raw, 0, 71, 25, 33);
    Slice(raw, 0, 71, 33, 49);
    Slice(raw, 0, 71, 49, 71);
  }

  lemma WireParts(t: Token, sign: seq<byte> -> Mac)
    requires Encodable(t)
    ensures var raw := Wire(t, sign); var n := 71 + |t.principal|;
            |raw| == n + 32 && raw[..71] == Header(t) && raw[71..n] == t.principal && raw[n..] == sign(raw[..n])
  {
    hide Header;
    assert Wire(t, sign)[..71 + |t.principal|] == Header(t) + t.principal;
  }

  /** The other way round: whatever parses is the token its fields are issued as, so
      no two byte strings parse to the same token. */
  lemma IssueParsed(raw: seq<byte>, sign: seq<byte> -> Mac)
    requires Parse(raw, sign).Some?
    ensures var t := Parse(raw, sign).value;
            Encodable(t) && Normal(t) == t && |t.principal| > 0 && Wire(t, sign) == raw
  {
    hide ParsePayload, Header, Encodable, Normal;
    var payload := raw[..|raw| - MAC_LEN];
    var t := Parse(raw, sign).value;
    assert raw == payload + sign(payload) && t == ParsePayload(payload) && payload[0] == TOKEN_VERSION;
    assert |t.principal| > 0 by { PrincipalParsed(payload); }
    hide Parse;
    PayloadParsed(payload);
  }

  lemma PrincipalParsed(p: seq<byte>)
    requires |p| >= HEADER_LEN
    ensures ParsePayload(p).principal == p[HEADER_LEN..]
  {
    hide ParseClaims, GetInt64;
  }

  lemma PayloadParsed(p: seq<byte>)
    requires |p| > HEADER_LEN && p[0] == TOKEN_VERSION
    ensures var t := ParsePayload(p); Encodable(t) && Normal(t) == t && Header(t) + t.principal == p
  {
    hide ParseClaims, Times, Rest, GetInt64, PutInt64, Identity, Header, Nanos, FromNanos, Cred;
    var t := ParsePayload(p);
    FitsParsed(p);
    RestParsed(p);
    TimesParsed(p);
    hide Encodable, Normal;
    IdentityParsed(p, t);
    Assemble(p, t);
  }

  lemma FitsParsed(p: seq<byte>)
    requires |p| >= HEADER_LEN
    ensures Encodable(ParsePayload(p)) && Normal(ParsePayload(p)) == ParsePayload(p)
  {
    hide ParseClaims, Times, Rest, GetInt64, Nanos, FromNanos, Cred;
    RestParsed(p);
    TimesParsed(p);
  }

  lemma IdentityParsed(p: seq<byte>, t: Token)
    requires Encodable(t) && |p| >= OFF_AUTH_TIME && p[0] == TOKEN_VERSION && t.sid == p[OFF_SID..OFF_EXP]
    requires t.exp == GetInt64(p[OFF_EXP..OFF_HARD]) && t.hard == GetInt64(p[OFF_HARD..OFF_AUTH_TIME])
    ensures Identity(t) == p[..OFF_AUTH_TIME]
  {
  }

  lemma Assemble(p: seq<byte>, t: Token)
    requires Encodable(t) && |p| >= HEADER_LEN && t.principal == p[HEADER_LEN..] && Identity(t) == p[..OFF_AUTH_TIME]
    requires Times(t.claims) == p[OFF_AUTH_TIME..OFF_TIER] && Rest(t.claims) == p[OFF_TIER..HEADER_LEN]
    ensures Header(t) + t.principal == p
  {
    hide Identity, Times, Rest;
    assert p == p[..OFF_AUTH_TIME] + p[OFF_AUTH_TIME..OFF_TIER] + p[OFF_TIER..HEADER_LEN] + p[HEADER_LEN..];
  }

  lemma SplitRest(p: seq<byte>)
    requires |p| >= HEADER_LEN
    ensures p[OFF_TIER..HEADER_LEN] ==
              [p[OFF_TIER]] + [p[OFF_SCOPE]] + p[OFF_FACTORS..OFF_ROT] + p[OFF_ROT..OFF_CRED] + p[OFF_CRED..HEADER_LEN]
  {
  }

  lemma TimesParsed(payload: seq<byte>)
    requires |payload| >= HEADER_LEN
    ensures var c := ParseClaims(payload);
            && IsInt64(Nanos(c.authTime)) && IsInt64(Nanos(c.notBefore))
            && Times(c) == payload[OFF_AUTH_TIME..OFF_TIER]
            && c.authTime == FromNanos(Nanos(c.authTime)) && c.notBefore == FromNanos(Nanos(c.notBefore))
  {
    hide GetInt64, PutInt64, GetFlags;
    var times := payload[OFF_AUTH_TIME..OFF_TIER];
    assert times[..8] == payload[OFF_AUTH_TIME..OFF_NOT_BEFORE] && times[8..] == payload[OFF_NOT_BEFORE..OFF_TIER];
  }

  lemma RestParsed(payload: seq<byte>)
    requires |payload| >= HEADER_LEN
    ensures var c := ParseClaims(payload);
            && 0 <= c.tier < 0x100 && 0 <= c.scope < 0x100 && 0 <= c.rot < 0x1_0000
            && Rest(c) == payload[OFF_TIER..HEADER_LEN] && Cred(c) == c.credId
  {
    hide GetInt64, GetFlags, PutFlags, PutUint16, BigEndian, Value, Pow256;
    FlagsWire(payload[OFF_FACTORS..OFF_ROT]);
    Uint16Parsed(payload[OFF_ROT..OFF_CRED]);
    SplitRest(payload);
  }

  lemma Uint16Parsed(s: seq<byte>)
    requires |s| == 2
    ensures 0 <= Value(s) < 0x1_0000 && PutUint16(Value(s)) == s
  {
  }
}

/** The baton on the wire (session/session.go): session id, generation, MAC. */
module Batons {
  import opened Basics
  import opened Bytes
  import opened Sessions

  const ID_LEN := 16

  function Mint(id: SessionId, gen: nat, sign: seq<byte> -> Mac): seq<byte>
    requires IsId(id) && gen < TWO_TO_64
  {
    Widths();
    var payload: seq<byte> := id.raw + BigEndian(gen, 8);
    payload + sign(payload)
  }

  predicate IsId(id: SessionId) {
    |id.raw| == ID_LEN && forall i :: 0 <= i < ID_LEN ==> 0 <= id.raw[i] < 256
  }

  function Verify(tok: seq<byte>, sign: seq<byte> -> Mac): Option<(SessionId, nat)> {
    if |tok| != ID_LEN + 8 + 32 then None
    else
      var payload := tok[..ID_LEN + 8];
      if tok[ID_LEN + 8..] != sign(payload) then None
      else Some((SessionId(payload[..ID_LEN]), Value(payload[ID_LEN..])))
  }

  /** A baton names exactly one session and generation, and only the string minted
      for a pair verifies to it. */
  lemma BatonRoundTrip(id: SessionId, gen: nat, sign: seq<byte> -> Mac)
    requires IsId(id) && gen < TWO_TO_64
    ensures Verify(Mint(id, gen, sign), sign) == Some((id, gen))
  {
  }

  lemma VerifiedIsMinted(tok: seq<byte>, sign: seq<byte> -> Mac)
    requires Verify(tok, sign).Some?
    ensures var (id, gen) := Verify(tok, sign).value;
            IsId(id) && gen < TWO_TO_64 && Mint(id, gen, sign) == tok
  {
    Widths();
    var payload := tok[..ID_LEN + 8];
    BigEndianValue(payload[ID_LEN..]);
    assert payload == payload[..ID_LEN] + payload[ID_LEN..];
    assert tok == payload + tok[ID_LEN + 8..];
  }
}
