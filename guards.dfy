/**
 * The three role guards. Each reads the role claim of the `authorization` header by
 * decoding the token WITHOUT checking its signature or expiry, then either lets the
 * request through (`true`) or throws `GENERAL_FORBIDEN`; none ever answers `false`.
 */
module RolesGuard {
  import opened Wrappers
  import opened Jwt

  /** `GeneralForbiden` is the role refusal; `InvalidToken` is what decoding a missing or unparsable header throws. */
  datatype GuardError = GeneralForbiden | InvalidToken

  /** The role claim of the header, read without any check; `None` when there is no parsable token. */
  function RoleClaim(authorization: Option<Token>): Option<UserRole>
  {
    if authorization.Some? && Decode(authorization.value).Some? then
      Some(Decode(authorization.value).value.payload.role)
    else None
  }

  /** The decision shared by the guards: allow exactly the roles in `allowed`. */
  function Decide(claim: Option<UserRole>, allowed: set<UserRole>): Result<bool, GuardError>
  {
    match claim
    case None => Failure(InvalidToken)
    case Some(role) => if role in allowed then Success(true) else Failure(GeneralForbiden)
  }

  /** `OnlyAdmin.canActivate`: lets through exactly the `ADMIN` role claim. */
  function OnlyAdminCanActivate(authorization: Option<Token>): (r: Result<bool, GuardError>)
    ensures r.Success? ==> r.value
    ensures r.Success? <==> RoleClaim(authorization) == Some(Admin)
    ensures RoleClaim(authorization).Some? && RoleClaim(authorization) != Some(Admin) ==> r == Failure(GeneralForbiden)
    ensures RoleClaim(authorization).None? ==> r == Failure(InvalidToken)
  {
    Decide(RoleClaim(authorization), {Admin})
  }

  /** `OnlySuperAdmin.canActivate`: lets through exactly the `SUPER_ADMIN` role claim. */
  function OnlySuperAdminCanActivate(authorization: Option<Token>): (r: Result<bool, GuardError>)
    ensures r.Success? ==> r.value
    ensures r.Success? <==> RoleClaim(authorization) == Some(SuperAdmin)
    ensures RoleClaim(authorization).Some? && RoleClaim(authorization) != Some(SuperAdmin) ==> r == Failure(GeneralForbiden)
    ensures RoleClaim(authorization).None? ==> r == Failure(InvalidToken)
  {
    Decide(RoleClaim(authorization), {SuperAdmin})
  }

  /** `AdminAndSuperAdmin.canActivate`: lets through the `ADMIN` and `SUPER_ADMIN` role claims and no other. */
  function AdminAndSuperAdminCanActivate(authorization: Option<Token>): (r: Result<bool, GuardError>)
    ensures r.Success? ==> r.value
    ensures r.Success? <==> RoleClaim(authorization) in {Some(Admin), Some(SuperAdmin)}
    ensures RoleClaim(authorization) == Some(User) ==> r == Failure(GeneralForbiden)
    ensures RoleClaim(authorization).None? ==> r == Failure(InvalidToken)
  {
    Decide(RoleClaim(authorization), {Admin, SuperAdmin})
  }

  /** The combined guard allows exactly when one of the single-role guards would. */
  lemma AdminAndSuperAdminIsUnion(authorization: Option<Token>)
    ensures AdminAndSuperAdminCanActivate(authorization).Success? <==>
      OnlyAdminCanActivate(authorization).Success? || OnlySuperAdminCanActivate(authorization).Success?
    ensures !AdminAndSuperAdminCanActivate(authorization).Success? ==>
      AdminAndSuperAdminCanActivate(authorization) == OnlyAdminCanActivate(authorization)
  {
  }

  /** The decision of every guard depends on the role claim alone: user id, time claims and signature play no part. */
  lemma DecisionDependsOnlyOnRole(t1: Token, t2: Token)
    requires t1.Signed? && t2.Signed? && t1.claims.payload.role == t2.claims.payload.role
    ensures OnlyAdminCanActivate(Some(t1)) == OnlyAdminCanActivate(Some(t2))
    ensures OnlySuperAdminCanActivate(Some(t1)) == OnlySuperAdminCanActivate(Some(t2))
    ensures AdminAndSuperAdminCanActivate(Some(t1)) == AdminAndSuperAdminCanActivate(Some(t2))
  {
  }

  /**
   * A token that verification refuses, because its signature is forged or because
   * it has expired, still passes the guards on its role claim.
   */
  lemma GuardsAcceptUnverifiedTokens(signer: Signer, userId: string, role: UserRole, iat: int, exp: int,
                                     forged: string, now: int)
    requires forged != signer.mac(signer.secret, Claims(Payload(userId, role), Some(iat), Some(exp)))
    requires now >= exp
    ensures var c := Claims(Payload(userId, role), Some(iat), Some(exp));
      && Verify(signer, Signed(c, forged), now) == Failure(TokenSignatureInvalid)
      && Verify(signer, Signed(c, signer.mac(signer.secret, c)), now) == Failure(TokenExpired)
      && (role == Admin ==> OnlyAdminCanActivate(Some(Signed(c, forged))) == Success(true))
      && (role == SuperAdmin ==> OnlySuperAdminCanActivate(Some(Signed(c, forged))) == Success(true))
      && (role != User ==> AdminAndSuperAdminCanActivate(Some(Signed(c, signer.mac(signer.secret, c)))) == Success(true))
  {
  }
}
