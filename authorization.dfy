/**
 * The concrete authorization requirements of the user authorization
 * controller (src/app/core/user/auth/user-authorization.controller.js).
 * A requirement is a function from the request context to an outcome; the
 * configuration, the session state and the collaborators whose source is not
 * part of this model (User.hasRoles, authenticateAndLogin, requiresEua) are
 * fields of the context.
 */
module Authorization {
  import opened Common
  import opened Util

  /** A requirement's verdict: resolve, or reject with an error object. */
  datatype Outcome = Granted | Denied(error: ErrorValue)

  /** The configuration the requirements read. */
  datatype Config = Config(
    autoLogin: bool,                      // config.auth.autoLogin, truthiness
    requiredRoles: Option<seq<string>>,   // config.auth.requiredRoles when config.auth exists and it is an array
    orgLevelsRequired: bool,              // _.get(config, 'orgLevelConfig.required', false), truthiness
    strategy: string,                     // config.auth.strategy
    exposeServerErrors: bool)             // config.exposeServerErrors

  /** The fields of `req.user` the requirements read. */
  datatype UserRecord = UserRecord(
    externalRoles: Option<seq<string>>,       // None when not an array
    organizationLevels: Option<seq<string>>,  // the enumerable entries; None when null or undefined
    bypassAccessCheck: Option<bool>)          // None when undefined

  /** One in-flight request as the requirements see it. */
  datatype Context = Context(
    config: Config,
    authenticated: bool,              // req.isAuthenticated()
    user: UserRecord,                 // req.user
    hasRoles: seq<string> -> bool,    // User.hasRoles(req.user, roles)
    autoLoginOutcome: Outcome,        // userAuthService.authenticateAndLogin(req)
    euaOutcome: Outcome)              // requiresEua(req)

  type Requirement = Context -> Outcome

  const NotLoggedIn := Rejection(401, "no-login", "User is not logged in")
  const MissingRoles := Rejection(403, "missing-roles", "User is missing required roles")
  const Inactive := Rejection(403, "inactive", "User account is inactive")
  const NoAccess := Rejection(403, "noaccess", "User is missing required roles")
  const RequiredOrg := Rejection(403, "requiredOrg", "User must select organization levels.")

  /** requiresLogin: an authenticated request passes whatever the configuration. */
  function RequiresLogin(ctx: Context): (o: Outcome)
    ensures ctx.authenticated ==> o == Granted
    ensures !ctx.authenticated && !ctx.config.autoLogin ==> o == Denied(NotLoggedIn)
    ensures !ctx.authenticated && ctx.config.autoLogin ==> o == ctx.autoLoginOutcome
  {
    if ctx.authenticated then Granted
    else if ctx.config.autoLogin then ctx.autoLoginOutcome
    else Denied(NotLoggedIn)
  }

  /** requiresRoles: the given rejection, or the missing-roles one, unless the user has the roles. */
  function RequiresRoles(roles: seq<string>, rejectStatus: Option<ErrorValue>): (req: Requirement)
    ensures forall ctx :: req(ctx).Granted? <==> ctx.hasRoles(roles)
    ensures forall ctx :: req(ctx).Denied? ==> req(ctx).error == rejectStatus.GetOr(MissingRoles)
  {
    var reject := rejectStatus.GetOr(MissingRoles);
    (ctx: Context) => if ctx.hasRoles(roles) then Granted else Denied(reject)
  }

  /** requiresUserRole: a user without the 'user' role is reported inactive. */
  function RequiresUserRole(ctx: Context): (o: Outcome)
    ensures o.Granted? <==> ctx.hasRoles(["user"])
    ensures o.Denied? ==> o.error == Inactive
  {
    RequiresRoles(["user"], Some(Inactive))(ctx)
  }

  /** requiresEditorRole. */
  function RequiresEditorRole(ctx: Context): (o: Outcome)
    ensures o.Granted? <==> ctx.hasRoles(["editor"])
    ensures o.Denied? ==> o.error == MissingRoles
  {
    RequiresRoles(["editor"], None)(ctx)
  }

  /** requiresAuditorRole. */
  function RequiresAuditorRole(ctx: Context): (o: Outcome)
    ensures o.Granted? <==> ctx.hasRoles(["auditor"])
    ensures o.Denied? ==> o.error == MissingRoles
  {
    RequiresRoles(["auditor"], None)(ctx)
  }

  /** requiresAdminRole. */
  function RequiresAdminRole(ctx: Context): (o: Outcome)
    ensures o.Granted? <==> ctx.hasRoles(["admin"])
    ensures o.Denied? ==> o.error == MissingRoles
  {
    RequiresRoles(["admin"], None)(ctx)
  }

  /** requiresEua: an external collaborator, its outcome given. */
  function RequiresEua(ctx: Context): Outcome {
    ctx.euaOutcome
  }

  /** _.difference: the elements of `a` that are not in `b`, in order. */
  function Difference(a: seq<string>, b: seq<string>): (r: seq<string>)
    ensures forall x :: x in r <==> x in a && x !in b
    ensures |r| > 0 <==> exists x :: x in a && x !in b
    ensures |r| <= |a|
  {
    if a == [] then []
    else (if a[0] in b then [] else [a[0]]) + Difference(a[1..], b)
  }

  /** Whether requiresExternalRoles checks anything at all. */
  predicate ExternalCheckApplies(ctx: Context) {
    && ctx.user.bypassAccessCheck == Some(false)
    && ctx.config.requiredRoles.Some?
    && |ctx.config.requiredRoles.value| > 0
  }

  /** The user's external roles, a non-array counting as none. */
  function ExternalRolesOf(user: UserRecord): seq<string> {
    if user.externalRoles.Some? then user.externalRoles.value else []
  }

  /**
   * requiresExternalRoles: unless the bypass flag is exactly false and roles
   * are configured, it passes; otherwise it passes iff every configured role
   * is among the user's external roles.
   */
  function RequiresExternalRoles(ctx: Context): (o: Outcome)
    ensures !ExternalCheckApplies(ctx) ==> o == Granted
    ensures ExternalCheckApplies(ctx) ==>
              (o.Granted? <==> forall role :: role in ctx.config.requiredRoles.value ==> role in ExternalRolesOf(ctx.user))
    ensures o.Denied? ==> o.error == NoAccess
  {
    if ExternalCheckApplies(ctx) then
      var userRoles := ExternalRolesOf(ctx.user);
      if |Difference(ctx.config.requiredRoles.value, userRoles)| > 0 then Denied(NoAccess)
      else Granted
    else Granted
  }

  /** `_.isEmpty(req.user.organizationLevels)`. */
  predicate NoOrganizationLevels(user: UserRecord) {
    user.organizationLevels.None? || user.organizationLevels.value == []
  }

  /**
   * requiresOrganizationLevels: passes when levels are not required, for an
   * admin, or when the user has selected levels.
   */
  function RequiresOrganizationLevels(ctx: Context): (o: Outcome)
    ensures o.Granted? <==> !ctx.config.orgLevelsRequired || ctx.hasRoles(["admin"]) || !NoOrganizationLevels(ctx.user)
    ensures o.Denied? ==> o.error == RequiredOrg
  {
    if !ctx.config.orgLevelsRequired then Granted
    else if ctx.hasRoles(["admin"]) then Granted
    else if !NoOrganizationLevels(ctx.user) then Granted
    else Denied(RequiredOrg)
  }

  /** Every denial a concrete requirement writes is sent to the client as it is. */
  lemma DenialsPassThrough(ctx: Context)
    ensures RequiresLogin(ctx).Denied? && !ctx.config.autoLogin ==> PassesThrough(RequiresLogin(ctx).error)
    ensures RequiresUserRole(ctx).Denied? ==> PassesThrough(RequiresUserRole(ctx).error)
    ensures RequiresEditorRole(ctx).Denied? ==> PassesThrough(RequiresEditorRole(ctx).error)
    ensures RequiresAuditorRole(ctx).Denied? ==> PassesThrough(RequiresAuditorRole(ctx).error)
    ensures RequiresAdminRole(ctx).Denied? ==> PassesThrough(RequiresAdminRole(ctx).error)
    ensures RequiresExternalRoles(ctx).Denied? ==> PassesThrough(RequiresExternalRoles(ctx).error)
    ensures RequiresOrganizationLevels(ctx).Denied? ==> PassesThrough(RequiresOrganizationLevels(ctx).error)
  {
  }
}
