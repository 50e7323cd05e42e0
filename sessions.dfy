/**
 * Sequences of requests against one cache: logins, refreshes and TTL lapses, run
 * one after another. The lemmas here are about whole runs: a refresh id rotates at
 * most once, a login's pair can be refreshed at once, rotation writes before it
 * deletes, and what the uniqueness of fresh refresh ids is needed for.
 */
module Sessions {
  import opened Wrappers
  import opened Jwt
  import opened CacheStore
  import opened Auth

  /** One event the service sees; `newId` is the fresh uuid the operation mints. */
  datatype Request =
    | LoginReq(email: string, newId: string, now: int)
    | RefreshReq(refreshId: string, accessToken: Token, newId: string, now: int)
    | ExpireReq(refreshId: string)

  datatype Reply = LoggedIn(login: LoginResponse) | Rotated(pair: TokenPair) | Evicted

  /** The refresh id a request writes a record for, if any. */
  function Mints(req: Request): Option<string>
  {
    match req
    case LoginReq(_, newId, _) => Some(newId)
    case RefreshReq(_, _, newId, _) => Some(newId)
    case ExpireReq(_) => None
  }

  /** One request: its reply and the cache changes it makes. */
  function Step(cfg: Config, users: map<string, UserRecord>, entries: map<string, string>, req: Request)
    : (Result<Reply, AuthError>, seq<CacheOp>)
  {
    match req
    case LoginReq(email, newId, now) =>
      var r := LoginSpec(cfg, users, email, newId, now);
      (if r.0.Success? then Success(LoggedIn(r.0.value)) else Failure(r.0.error), r.1)
    case RefreshReq(refreshId, accessToken, newId, now) =>
      var r := RefreshSpec(cfg, entries, refreshId, accessToken, newId, now);
      (if r.0.Success? then Success(Rotated(r.0.value)) else Failure(r.0.error), r.1)
    case ExpireReq(refreshId) =>
      (Success(Evicted), [Lapse(CacheKey(cfg, refreshId))])
  }

  /** The replies to `reqs`, one per request in order, and the cache they leave. */
  function Run(cfg: Config, users: map<string, UserRecord>, entries: map<string, string>, reqs: seq<Request>)
    : (r: (seq<Result<Reply, AuthError>>, map<string, string>))
    ensures |r.0| == |reqs|
    decreases |reqs|
  {
    if reqs == [] then ([], entries)
    else
      var first := Step(cfg, users, entries, reqs[0]);
      var rest := Run(cfg, users, Apply(entries, first.1), reqs[1..]);
      ([first.0] + rest.0, rest.1)
  }

  /** A request that does not mint `id` cannot bring back a record for it, and a refresh with it fails. */
  lemma StepKeepsRetired(cfg: Config, users: map<string, UserRecord>, entries: map<string, string>, req: Request, id: string)
    requires CacheKey(cfg, id) !in entries
    requires Mints(req) != Some(id)
    ensures CacheKey(cfg, id) !in Apply(entries, Step(cfg, users, entries, req).1)
    ensures req.RefreshReq? && req.refreshId == id ==> Step(cfg, users, entries, req).0 == Failure(JwtExpired)
  {
    var ops := Step(cfg, users, entries, req).1;
    match req
    case LoginReq(email, newId, now) =>
      if CacheKey(cfg, id) == CacheKey(cfg, newId) {
        CacheKeyInjective(cfg, id, newId);
      }
    case RefreshReq(refreshId, accessToken, newId, now) =>
      var r := RefreshSpec(cfg, entries, refreshId, accessToken, newId, now);
      if r.0.Success? {
        ApplyPutRemove(entries, CacheKey(cfg, newId), cfg.hash(r.0.value.accessToken), CacheKey(cfg, refreshId));
        if CacheKey(cfg, id) == CacheKey(cfg, newId) {
          CacheKeyInjective(cfg, id, newId);
        }
      }
    case ExpireReq(refreshId) =>
      ApplySingle(entries, Lapse(CacheKey(cfg, refreshId)));
  }

  /**
   * Once a refresh id has no record, no run that never mints that id again brings
   * it back, and every refresh presenting it fails with `JwtExpired`.
   */
  lemma {:induction false} RetiredIdStaysRetired(cfg: Config, users: map<string, UserRecord>, entries: map<string, string>,
                                                 reqs: seq<Request>, id: string)
    requires CacheKey(cfg, id) !in entries
    requires forall k :: 0 <= k < |reqs| ==> Mints(reqs[k]) != Some(id)
    ensures CacheKey(cfg, id) !in Run(cfg, users, entries, reqs).1
    ensures forall k :: 0 <= k < |reqs| && reqs[k].RefreshReq? && reqs[k].refreshId == id ==>
              Run(cfg, users, entries, reqs).0[k] == Failure(JwtExpired)
    decreases |reqs|
  {
    if reqs != [] {
      var first := Step(cfg, users, entries, reqs[0]);
      var next := Apply(entries, first.1);
      StepKeepsRetired(cfg, users, entries, reqs[0], id);
      RetiredIdStaysRetired(cfg, users, next, reqs[1..], id);
      var outs := Run(cfg, users, entries, reqs).0;
      assert outs == [first.0] + Run(cfg, users, next, reqs[1..]).0;
      forall k | 0 <= k < |reqs| && reqs[k].RefreshReq? && reqs[k].refreshId == id
        ensures outs[k] == Failure(JwtExpired)
      {
        if k > 0 {
          assert reqs[1..][k - 1] == reqs[k];
        }
      }
    }
  }

  /**
   * Each refresh id rotates at most once: of two refreshes presenting the same id
   * in one run, at most one succeeds, provided no request from the first of them
   * on mints that id again (the uniqueness a uuid is relied on for).
   */
  lemma {:induction false} AtMostOneRotationPerId(cfg: Config, users: map<string, UserRecord>, entries: map<string, string>,
                                                  reqs: seq<Request>, id: string, i: nat, j: nat)
    requires i < j < |reqs|
    requires reqs[i].RefreshReq? && reqs[i].refreshId == id
    requires reqs[j].RefreshReq? && reqs[j].refreshId == id
    requires forall k :: i <= k < |reqs| ==> Mints(reqs[k]) != Some(id)
    ensures !(Run(cfg, users, entries, reqs).0[i].Success? && Run(cfg, users, entries, reqs).0[j].Success?)
    decreases i
  {
    var first := Step(cfg, users, entries, reqs[0]);
    var next := Apply(entries, first.1);
    var outs := Run(cfg, users, entries, reqs).0;
    assert outs == [first.0] + Run(cfg, users, next, reqs[1..]).0;
    if i == 0 {
      if first.0.Success? {
        var req := reqs[0];
        var r := RefreshSpec(cfg, entries, id, req.accessToken, req.newId, req.now);
        ApplyPutRemove(entries, CacheKey(cfg, req.newId), cfg.hash(r.0.value.accessToken), CacheKey(cfg, id));
        forall k | 0 <= k < |reqs[1..]| ensures Mints(reqs[1..][k]) != Some(id) {
          assert reqs[1..][k] == reqs[k + 1];
        }
        RetiredIdStaysRetired(cfg, users, next, reqs[1..], id);
        assert reqs[1..][j - 1] == reqs[j];
      }
    } else {
      forall k | i - 1 <= k < |reqs[1..]| ensures Mints(reqs[1..][k]) != Some(id) {
        assert reqs[1..][k] == reqs[k + 1];
      }
      assert reqs[1..][i - 1] == reqs[i] && reqs[1..][j - 1] == reqs[j];
      AtMostOneRotationPerId(cfg, users, next, reqs[1..], id, i - 1, j - 1);
    }
  }

  /**
   * A login's pair refreshes at once: the new token carries the user's id and role,
   * and afterwards only the new refresh id has a record.
   */
  lemma LoginThenRefreshSucceeds(cfg: Config, users: map<string, UserRecord>, entries: map<string, string>,
                                 email: string, loginId: string, loginAt: int, newId: string, refreshAt: int)
    requires email in users
    requires newId != loginId
    ensures var login := LoginSpec(cfg, users, email, loginId, loginAt);
      && login.0.Success?
      && var afterLogin := Apply(entries, login.1);
         var refresh := RefreshSpec(cfg, afterLogin, loginId, login.0.value.tokens.accessToken, newId, refreshAt);
         && refresh.0.Success?
         && Decode(refresh.0.value.accessToken) ==
              Some(IssuedClaims(cfg.signer, Payload(users[email].id, users[email].role), refreshAt))
         && CacheKey(cfg, loginId) !in Apply(afterLogin, refresh.1)
         && Lookup(Apply(afterLogin, refresh.1), CacheKey(cfg, newId)) == Some(cfg.hash(refresh.0.value.accessToken))
  {
    var login := LoginSpec(cfg, users, email, loginId, loginAt);
    var afterLogin := Apply(entries, login.1);
    var refresh := RefreshSpec(cfg, afterLogin, loginId, login.0.value.tokens.accessToken, newId, refreshAt);
    ApplyPutRemove(afterLogin, CacheKey(cfg, newId), cfg.hash(refresh.0.value.accessToken), CacheKey(cfg, loginId));
    if CacheKey(cfg, newId) == CacheKey(cfg, loginId) {
      CacheKeyInjective(cfg, newId, loginId);
    }
  }

  /**
   * A rotated pair rotates again at once: the pair one refresh returns is accepted
   * by the next, which keeps the same user id and role.
   */
  lemma RotatedPairRefreshesAgain(cfg: Config, entries: map<string, string>, refreshId: string, accessToken: Token,
                                  newId: string, now: int, nextId: string, later: int)
    requires newId != refreshId
    requires RefreshSpec(cfg, entries, refreshId, accessToken, newId, now).0.Success?
    ensures var r := RefreshSpec(cfg, entries, refreshId, accessToken, newId, now);
      var again := RefreshSpec(cfg, Apply(entries, r.1), newId, r.0.value.accessToken, nextId, later);
      && again.0.Success?
      && Decode(again.0.value.accessToken) == Some(IssuedClaims(cfg.signer, Decode(accessToken).value.payload, later))
  {
    var r := RefreshSpec(cfg, entries, refreshId, accessToken, newId, now);
    if CacheKey(cfg, newId) == CacheKey(cfg, refreshId) {
      CacheKeyInjective(cfg, newId, refreshId);
    }
    ApplyPutRemove(entries, CacheKey(cfg, newId), cfg.hash(r.0.value.accessToken), CacheKey(cfg, refreshId));
  }

  /**
   * Rotation writes the new record before it deletes the old one: after the write
   * alone (a crash before the delete) both records are live; after both changes the
   * old record is gone, the new one is live and no other entry has changed.
   */
  lemma CreateBeforeDelete(cfg: Config, entries: map<string, string>, refreshId: string, accessToken: Token,
                           newId: string, now: int)
    requires newId != refreshId
    requires RefreshSpec(cfg, entries, refreshId, accessToken, newId, now).0.Success?
    ensures var r := RefreshSpec(cfg, entries, refreshId, accessToken, newId, now);
      var oldKey, newKey, newHash := CacheKey(cfg, refreshId), CacheKey(cfg, newId), cfg.hash(r.0.value.accessToken);
      && Lookup(Apply(entries, r.1[..1]), oldKey) == Some(cfg.hash(accessToken))
      && Lookup(Apply(entries, r.1[..1]), newKey) == Some(newHash)
      && oldKey !in Apply(entries, r.1)
      && Lookup(Apply(entries, r.1), newKey) == Some(newHash)
      && forall k :: k != oldKey && k != newKey ==> Lookup(Apply(entries, r.1), k) == Lookup(entries, k)
  {
    var r := RefreshSpec(cfg, entries, refreshId, accessToken, newId, now);
    var oldKey, newKey := CacheKey(cfg, refreshId), CacheKey(cfg, newId);
    if oldKey == newKey {
      CacheKeyInjective(cfg, refreshId, newId);
    }
    assert r.1[..1] == [Put(newKey, cfg.hash(r.0.value.accessToken))];
    ApplyPutRemove(entries, newKey, cfg.hash(r.0.value.accessToken), oldKey);
  }

  /**
   * Why fresh ids must differ from the one being rotated: a rotation whose new id
   * equals the presented one deletes the record it has just written, so the pair it
   * returns is refused at once and the session is lost.
   */
  lemma RefreshWithOwnIdLosesSession(cfg: Config, entries: map<string, string>, id: string, accessToken: Token,
                                     now: int, nextId: string, later: int)
    requires RefreshSpec(cfg, entries, id, accessToken, id, now).0.Success?
    ensures var r := RefreshSpec(cfg, entries, id, accessToken, id, now);
      && CacheKey(cfg, id) !in Apply(entries, r.1)
      && RefreshSpec(cfg, Apply(entries, r.1), r.0.value.refreshToken, r.0.value.accessToken, nextId, later).0
           == Failure(JwtExpired)
  {
    var r := RefreshSpec(cfg, entries, id, accessToken, id, now);
    ApplyPutRemove(entries, CacheKey(cfg, id), cfg.hash(r.0.value.accessToken), CacheKey(cfg, id));
  }

  /**
   * Signing is deterministic and `iat` counts seconds, so a refresh in the same
   * second as the login re-issues the very same access token; the old access token
   * is then accepted together with the new refresh id.
   */
  lemma SameSecondRotationRepeatsToken(cfg: Config, users: map<string, UserRecord>, entries: map<string, string>,
                                       email: string, loginId: string, newId: string, now: int,
                                       nextId: string, later: int)
    requires email in users
    requires newId != loginId
    ensures var login := LoginSpec(cfg, users, email, loginId, now);
      && login.0.Success?
      && var a0 := login.0.value.tokens.accessToken;
         var afterLogin := Apply(entries, login.1);
         var refresh := RefreshSpec(cfg, afterLogin, loginId, a0, newId, now);
         && refresh.0.Success?
         && refresh.0.value.accessToken == a0
         && RefreshSpec(cfg, Apply(afterLogin, refresh.1), newId, a0, nextId, later).0.Success?
  {
    LoginThenRefreshSucceeds(cfg, users, entries, email, loginId, now, newId, now);
  }
}
