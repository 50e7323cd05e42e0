/**
 * The authentication service: login issues an access token and a refresh token,
 * and refresh rotates the pair. The only state is the cache, which maps
 * `prefix + refreshId` to the SHA-256 fingerprint of the access token issued with
 * that refresh id. The pure functions below specify each operation as its reply
 * plus the cache changes it makes; the class runs the operations step by step and
 * is proved to match them.
 */
module Auth {
  import opened Wrappers
  import opened Jwt
  import opened CacheStore

  /** The errors the service throws. `PayloadUnreadable` is the `TypeError` of deleting a claim of a `null` payload. */
  datatype AuthError = EmailIsAlreadyTaken | JwtExpired | PayloadUnreadable

  /** A user as the user directory returns it. */
  datatype UserRecord = UserRecord(id: string, email: string, role: UserRole)

  /** The access token and the refresh id handed to the client. */
  datatype TokenPair = TokenPair(accessToken: Token, refreshToken: string)

  /** The reply to a login: the token pair plus the user's id, email and role. */
  datatype LoginResponse = LoginResponse(tokens: TokenPair, id: string, email: string, role: UserRole)

  /** A hex-encoded SHA-256 digest: 64 characters, so never the empty string. */
  type HexDigest = s: string | |s| == 64
    witness "0000000000000000000000000000000000000000000000000000000000000000"

  /**
   * The service's fixed configuration: the cache key prefix, the token signer,
   * the fingerprint function (SHA-256 as hex, deterministic but otherwise
   * unknown) and the refresh-record TTL handed to the cache.
   */
  datatype Config = Config(prefix: string, signer: Signer, hash: Token -> HexDigest, refreshTokenExpiry: nat)

  /** The cache key of a refresh id. */
  function CacheKey(cfg: Config, refreshId: string): string
  {
    cfg.prefix + refreshId
  }

  /** Distinct refresh ids have distinct cache keys. */
  lemma CacheKeyInjective(cfg: Config, a: string, b: string)
    requires CacheKey(cfg, a) == CacheKey(cfg, b)
    ensures a == b
  {
    assert a == CacheKey(cfg, a)[|cfg.prefix|..];
    assert b == CacheKey(cfg, b)[|cfg.prefix|..];
  }

  /** The payload an access token is re-signed with: its decoded claims with `iat` and `exp` removed. */
  function StripTimes(c: Claims): Payload
  {
    c.payload
  }

  /** The cache change `generateRefreshToken` makes: record the fingerprint of `accessToken` under the new id. */
  function RefreshRecordOps(cfg: Config, accessToken: Token, newId: string): (ops: seq<CacheOp>)
    ensures forall m :: Apply(m, ops) == m[CacheKey(cfg, newId) := cfg.hash(accessToken)]
    ensures Touched(ops) == {CacheKey(cfg, newId)}
  {
    var ops := [Put(CacheKey(cfg, newId), cfg.hash(accessToken))];
    forall m: map<string, string> ensures Apply(m, ops) == m[CacheKey(cfg, newId) := cfg.hash(accessToken)] {
      ApplySingle(m, Put(CacheKey(cfg, newId), cfg.hash(accessToken)));
    }
    ops
  }

  /**
   * `login`: a known email gets a token signed for the user's id and role and a
   * refresh record for it; an unknown email fails with `EmailIsAlreadyTaken` and
   * changes nothing.
   */
  function LoginSpec(cfg: Config, users: map<string, UserRecord>, email: string, newId: string, now: int)
    : (r: (Result<LoginResponse, AuthError>, seq<CacheOp>))
    ensures r.0 == Failure(EmailIsAlreadyTaken) <==> email !in users
    ensures r.0.Success? <==> email in users
    ensures r.0.Failure? ==> r.1 == []
    ensures r.0.Success? ==>
      var u, res := users[email], r.0.value;
      && res.id == u.id && res.email == u.email && res.role == u.role
      && res.tokens.refreshToken == newId
      && Decode(res.tokens.accessToken) == Some(IssuedClaims(cfg.signer, Payload(u.id, u.role), now))
      && r.1 == [Put(CacheKey(cfg, newId), cfg.hash(res.tokens.accessToken))]
  {
    if email !in users then (Failure(EmailIsAlreadyTaken), [])
    else
      var user := users[email];
      var accessToken := Sign(cfg.signer, Payload(user.id, user.role), now);
      (Success(LoginResponse(TokenPair(accessToken, newId), user.id, user.email, user.role)),
       RefreshRecordOps(cfg, accessToken, newId))
  }

  /**
   * `refreshAccessToken`: the presented refresh id must have a record, and the
   * record must be the fingerprint of the presented access token; both failures are
   * the same `JwtExpired` and change nothing. On success the decoded payload, with
   * fresh time claims, is re-signed, a record for the new id is written FIRST and the
   * old record is removed AFTER it.
   */
  function RefreshSpec(cfg: Config, entries: map<string, string>, refreshId: string, accessToken: Token,
                       newId: string, now: int)
    : (r: (Result<TokenPair, AuthError>, seq<CacheOp>))
    ensures r.0 == Failure(JwtExpired) <==> Lookup(entries, CacheKey(cfg, refreshId)) != Some(cfg.hash(accessToken))
    ensures r.0 == Failure(PayloadUnreadable) <==>
      Lookup(entries, CacheKey(cfg, refreshId)) == Some(cfg.hash(accessToken)) && accessToken.Malformed?
    ensures r.0.Success? <==>
      Lookup(entries, CacheKey(cfg, refreshId)) == Some(cfg.hash(accessToken)) && accessToken.Signed?
    ensures r.0.Failure? ==> r.1 == []
    ensures r.0.Success? ==>
      && Decode(accessToken).Some?
      && r.0.value.refreshToken == newId
      && Decode(r.0.value.accessToken) == Some(IssuedClaims(cfg.signer, Decode(accessToken).value.payload, now))
      && r.1 == [Put(CacheKey(cfg, newId), cfg.hash(r.0.value.accessToken)), Remove(CacheKey(cfg, refreshId))]
  {
    var oldHashAccessToken := Lookup(entries, CacheKey(cfg, refreshId));
    if oldHashAccessToken.None? || oldHashAccessToken.value == "" then (Failure(JwtExpired), [])
    else if cfg.hash(accessToken) == oldHashAccessToken.value then
      match Decode(accessToken)
      case None => (Failure(PayloadUnreadable), [])
      case Some(oldPayload) =>
        var newAccessToken := Sign(cfg.signer, StripTimes(oldPayload), now);
        (Success(TokenPair(newAccessToken, newId)),
         RefreshRecordOps(cfg, newAccessToken, newId) + [Remove(CacheKey(cfg, refreshId))])
    else (Failure(JwtExpired), [])
  }

  /** The service as a class: fixed configuration, the user directory and the shared cache. */
  class AuthService {
    const cfg: Config
    /** The user directory: an email is known when it is a key; the lookup returns its record. */
    const users: map<string, UserRecord>
    const cache: Cache

    constructor (cfg: Config, users: map<string, UserRecord>, cache: Cache)
      ensures this.cfg == cfg && this.users == users && this.cache == cache
    {
      this.cfg := cfg;
      this.users := users;
      this.cache := cache;
    }

    /** `decodeAccessToken`: the token's claims, read without checking signature or expiry. */
    function DecodeAccessToken(accessToken: Token): (c: Option<Claims>)
      ensures accessToken.Signed? ==> c == Some(accessToken.claims)
      ensures accessToken.Malformed? ==> c == None
    {
      Decode(accessToken)
    }

    /** `verifyAccessToken`: the claims of a token only when its signature is genuine and it has not expired. */
    function VerifyAccessToken(accessToken: Token, now: int): (r: Result<Claims, VerifyError>)
      ensures r.Success? <==>
        && accessToken.Signed?
        && accessToken.signature == cfg.signer.mac(cfg.signer.secret, accessToken.claims)
        && (accessToken.claims.exp.Some? ==> now < accessToken.claims.exp.value)
      ensures r.Success? ==> DecodeAccessToken(accessToken) == Some(r.value)
    {
      Verify(cfg.signer, accessToken, now)
    }

    /** `generateAccessToken`: a token that decodes back to `payload` with fresh time claims and verifies until it expires. */
    function GenerateAccessToken(payload: Payload, now: int): (t: Token)
      ensures DecodeAccessToken(t) == Some(IssuedClaims(cfg.signer, payload, now))
      ensures forall at :: now <= at < now + cfg.signer.expiresIn ==> VerifyAccessToken(t, at).Success?
    {
      Sign(cfg.signer, payload, now)
    }

    /** `generateRefreshToken`: records the fingerprint of `accessToken` under the new id; no other entry changes. */
    method GenerateRefreshToken(accessToken: Token, newId: string) returns (refreshToken: string)
      requires cache.Valid()
      modifies cache
      ensures cache.Valid() && cache.origin == old(cache.origin)
      ensures refreshToken == newId
      ensures cache.entries == old(cache.entries)[CacheKey(cfg, newId) := cfg.hash(accessToken)]
      ensures cache.log == old(cache.log) + RefreshRecordOps(cfg, accessToken, newId)
    {
      refreshToken := newId;
      var hashedAccessToken := cfg.hash(accessToken);
      cache.Set(CacheKey(cfg, refreshToken), hashedAccessToken, cfg.refreshTokenExpiry);
    }

    /** `login`, step by step; its reply and cache changes are those of `LoginSpec`. */
    method Login(email: string, newId: string, now: int) returns (r: Result<LoginResponse, AuthError>)
      requires cache.Valid()
      modifies cache
      ensures cache.Valid() && cache.origin == old(cache.origin)
      ensures r == LoginSpec(cfg, users, email, newId, now).0
      ensures cache.log == old(cache.log) + LoginSpec(cfg, users, email, newId, now).1
      ensures cache.entries == Apply(old(cache.entries), LoginSpec(cfg, users, email, newId, now).1)
    {
      if email !in users {
        return Failure(EmailIsAlreadyTaken);
      }
      var user := users[email];
      var accessToken := GenerateAccessToken(Payload(user.id, user.role), now);
      var refreshToken := GenerateRefreshToken(accessToken, newId);
      r := Success(LoginResponse(TokenPair(accessToken, refreshToken), user.id, user.email, user.role));
    }

    /** `refreshAccessToken`, step by step; its reply and cache changes are those of `RefreshSpec`. */
    method RefreshAccessToken(refreshToken: string, accessToken: Token, newId: string, now: int)
      returns (r: Result<TokenPair, AuthError>)
      requires cache.Valid()
      modifies cache
      ensures cache.Valid() && cache.origin == old(cache.origin)
      ensures r == RefreshSpec(cfg, old(cache.entries), refreshToken, accessToken, newId, now).0
      ensures cache.log == old(cache.log) + RefreshSpec(cfg, old(cache.entries), refreshToken, accessToken, newId, now).1
      ensures cache.entries == Apply(old(cache.entries), RefreshSpec(cfg, old(cache.entries), refreshToken, accessToken, newId, now).1)
    {
      var oldHashAccessToken := cache.Get(CacheKey(cfg, refreshToken));
      if oldHashAccessToken.None? || oldHashAccessToken.value == "" {
        return Failure(JwtExpired);
      }
      var hashAccessToken := cfg.hash(accessToken);
      if hashAccessToken == oldHashAccessToken.value {
        var oldPayload := DecodeAccessToken(accessToken);
        if oldPayload.None? {
          return Failure(PayloadUnreadable);
        }
        var newAccessToken := GenerateAccessToken(StripTimes(oldPayload.value), now);
        var newRefreshToken := GenerateRefreshToken(newAccessToken, newId);
        cache.Del(CacheKey(cfg, refreshToken));
        ApplyPutRemove(old(cache.entries), CacheKey(cfg, newId), cfg.hash(newAccessToken), CacheKey(cfg, refreshToken));
        return Success(TokenPair(newAccessToken, newRefreshToken));
      } else {
        return Failure(JwtExpired);
      }
    }

    /** The TTL of the record for `refreshId` lapses. */
    method ExpireRefreshToken(refreshId: string)
      requires cache.Valid()
      modifies cache
      ensures cache.Valid() && cache.origin == old(cache.origin)
      ensures cache.entries == Apply(old(cache.entries), [Lapse(CacheKey(cfg, refreshId))])
      ensures cache.log == old(cache.log) + [Lapse(CacheKey(cfg, refreshId))]
    {
      cache.Expire(CacheKey(cfg, refreshId));
      ApplySingle(old(cache.entries), Lapse(CacheKey(cfg, refreshId)));
    }
  }
}
