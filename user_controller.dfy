/**
 * The requirement combinators, their middleware adapters and the access
 * profiles of the user controller (src/app/core/user/user.controller.js).
 * An Evaluation records, beside the outcome, the indices of the requirements
 * that were invoked, in invocation order, so that short-circuiting can be
 * stated.
 */
module UserController {
  import opened Common
  import opened Util
  import opened Authorization

  datatype Evaluation = Evaluation(outcome: Outcome, trace: seq<int>)

  /*=====================================
   * requiresAll
   *====================================*/

  /**
   * applyRequirement(i) of requiresAll: requirement i is invoked, and only
   * when it passes is requirement i + 1 tried; past the end the result passes.
   */
  function ApplyRequirement(requirements: seq<Requirement>, ctx: Context, i: nat): (e: Evaluation)
    requires i <= |requirements|
    ensures |e.trace| <= |requirements| - i && e.trace == Span(i, i + |e.trace|)
    ensures e.outcome.Granted? ==>
              |e.trace| == |requirements| - i &&
              forall j :: i <= j < |requirements| ==> requirements[j](ctx).Granted?
    ensures e.outcome.Denied? ==>
              |e.trace| >= 1 && e.outcome == requirements[i + |e.trace| - 1](ctx) &&
              forall j :: i <= j < i + |e.trace| - 1 ==> requirements[j](ctx).Granted?
    decreases |requirements| - i
  {
    if i < |requirements| then
      var result := requirements[i](ctx);
      if result.Granted? then
        var rest := ApplyRequirement(requirements, ctx, i + 1);
        Evaluation(rest.outcome, [i] + rest.trace)
      else
        Evaluation(result, [i])
    else
      Evaluation(Granted, [])
  }

  /** requiresAll: the AND of the requirements; the empty list passes. */
  function RequiresAll(requirements: seq<Requirement>): (all: Requirement)
    ensures forall ctx :: all(ctx).Granted? <==> forall j :: 0 <= j < |requirements| ==> requirements[j](ctx).Granted?
    ensures forall ctx :: all(ctx).Denied? ==> exists j :: 0 <= j < |requirements| && all(ctx) == requirements[j](ctx)
  {
    (ctx: Context) => ApplyRequirement(requirements, ctx, 0).outcome
  }

  /** When every requirement passes, requiresAll passes after invoking each once, in order. */
  lemma RequiresAllEveryGranted(requirements: seq<Requirement>, ctx: Context)
    requires forall j :: 0 <= j < |requirements| ==> requirements[j](ctx).Granted?
    ensures ApplyRequirement(requirements, ctx, 0) == Evaluation(Granted, Span(0, |requirements|))
  {
  }

  /**
   * When requirement k is the first to reject, requiresAll rejects with
   * exactly that error and invokes nothing after k.
   */
  lemma RequiresAllFirstDenial(requirements: seq<Requirement>, ctx: Context, k: nat)
    requires k < |requirements| && requirements[k](ctx).Denied?
    requires forall j :: 0 <= j < k ==> requirements[j](ctx).Granted?
    ensures ApplyRequirement(requirements, ctx, 0) == Evaluation(requirements[k](ctx), Span(0, k + 1))
  {
  }

  /*=====================================
   * requiresAny
   *====================================*/

  /**
   * requiresAny: requirements are invoked in order until one passes; each
   * rejection overwrites `error`, and when all reject the last error is the
   * result. The empty list passes.
   */
  method RequiresAny(requirements: seq<Requirement>, ctx: Context) returns (e: Evaluation)
    ensures requirements == [] ==> e == Evaluation(Granted, [])
    ensures |e.trace| <= |requirements| && e.trace == Span(0, |e.trace|)
    ensures e.outcome.Granted? <==> requirements == [] || exists j :: 0 <= j < |requirements| && requirements[j](ctx).Granted?
    ensures e.outcome.Granted? && requirements != [] ==>
              |e.trace| >= 1 && requirements[|e.trace| - 1](ctx).Granted? &&
              forall j :: 0 <= j < |e.trace| - 1 ==> requirements[j](ctx).Denied?
    ensures e.outcome.Denied? ==>
              |e.trace| == |requirements| && e.outcome == requirements[|requirements| - 1](ctx) &&
              forall j :: 0 <= j < |requirements| ==> requirements[j](ctx).Denied?
  {
    if |requirements| == 0 {
      return Evaluation(Granted, []);
    }
    var error: Outcome := Granted;
    var trace: seq<int> := [];
    var i := 0;
    while i < |requirements|
      invariant 0 <= i <= |requirements|
      invariant trace == Span(0, i)
      invariant forall j :: 0 <= j < i ==> requirements[j](ctx).Denied?
      invariant i > 0 ==> error == requirements[i - 1](ctx)
    {
      var result := requirements[i](ctx);
      trace := trace + [i];
      if result.Granted? {
        return Evaluation(Granted, trace);
      }
      error := result;
      i := i + 1;
    }
    return Evaluation(error, trace);
  }

  /*=====================================
   * has, hasAll, hasAny
   *====================================*/

  /** What the middleware does: call `next`, or answer through handleErrorResponse. */
  datatype GateAction = CallNext | Respond(reply: Reply)

  /** The two callbacks shared by has, hasAll and hasAny. */
  method Adapt(outcome: Outcome, ctx: Context) returns (action: GateAction)
    ensures action.CallNext? <==> outcome.Granted?
    ensures outcome.Denied? ==> action == Respond(ErrorReply(outcome.error, ctx.config.exposeServerErrors))
  {
    if outcome.Granted? {
      action := CallNext;
    } else {
      var reply := HandleErrorResponse(Some(outcome.error), ctx.config.exposeServerErrors);
      action := Respond(reply);
    }
  }

  /** has: `next` iff the requirement passes; otherwise its rejection is answered. */
  method Has(requirement: Requirement, ctx: Context) returns (action: GateAction)
    ensures action.CallNext? <==> requirement(ctx).Granted?
    ensures requirement(ctx).Denied? ==>
              action == Respond(ErrorReply(requirement(ctx).error, ctx.config.exposeServerErrors))
  {
    action := Adapt(requirement(ctx), ctx);
  }

  /** hasAll: `next` iff every requirement passes; otherwise the first rejection is answered. */
  method HasAll(requirements: seq<Requirement>, ctx: Context) returns (action: GateAction)
    ensures action.CallNext? <==> forall j :: 0 <= j < |requirements| ==> requirements[j](ctx).Granted?
    ensures action.Respond? ==>
              exists k :: 0 <= k < |requirements| && requirements[k](ctx).Denied? &&
                (forall j :: 0 <= j < k ==> requirements[j](ctx).Granted?) &&
                action == Respond(ErrorReply(requirements[k](ctx).error, ctx.config.exposeServerErrors))
    ensures action.Respond? ==>
              action == Respond(ErrorReply(ApplyRequirement(requirements, ctx, 0).outcome.error, ctx.config.exposeServerErrors))
  {
    action := Adapt(RequiresAll(requirements)(ctx), ctx);
  }

  /** hasAny: `next` iff the list is empty or some requirement passes; otherwise the last rejection is answered. */
  method HasAny(requirements: seq<Requirement>, ctx: Context) returns (action: GateAction)
    ensures action.CallNext? <==> requirements == [] || exists j :: 0 <= j < |requirements| && requirements[j](ctx).Granted?
    ensures action.Respond? ==>
              action == Respond(ErrorReply(requirements[|requirements| - 1](ctx).error, ctx.config.exposeServerErrors))
  {
    var e := RequiresAny(requirements, ctx);
    action := Adapt(e.outcome, ctx);
  }

  /*=====================================
   * Access profiles
   *====================================*/

  /** The requirements the access profiles name. */
  datatype Check = Login | Eua | OrganizationLevels | UserRole | ExternalRoles | EditorRole | AuditorRole | AdminRole

  function Evaluate(check: Check, ctx: Context): Outcome {
    match check
    case Login => RequiresLogin(ctx)
    case Eua => RequiresEua(ctx)
    case OrganizationLevels => RequiresOrganizationLevels(ctx)
    case UserRole => RequiresUserRole(ctx)
    case ExternalRoles => RequiresExternalRoles(ctx)
    case EditorRole => RequiresEditorRole(ctx)
    case AuditorRole => RequiresAuditorRole(ctx)
    case AdminRole => RequiresAdminRole(ctx)
  }

  /** The requirement functions of a list of checks, in the same order. */
  function Requirements(checks: seq<Check>): (requirements: seq<Requirement>)
    ensures |requirements| == |checks|
    ensures forall i, ctx :: 0 <= i < |checks| ==> requirements[i](ctx) == Evaluate(checks[i], ctx)
  {
    seq(|checks|, i requires 0 <= i < |checks| => (ctx: Context) => Evaluate(checks[i], ctx))
  }

  const AccessChecks: seq<Check> := [Login, Eua, OrganizationLevels, UserRole, ExternalRoles]
  const EditorAccessChecks: seq<Check> := [Login, Eua, OrganizationLevels, UserRole, ExternalRoles, EditorRole]
  const AuditorAccessChecks: seq<Check> := [Login, Eua, OrganizationLevels, UserRole, ExternalRoles, AuditorRole]
  const AdminAccessChecks: seq<Check> := [Login, AdminRole]

  /** The editor and auditor profiles are the base profile with one role check appended. */
  lemma ProfilesExtendBase()
    ensures EditorAccessChecks == AccessChecks + [EditorRole]
    ensures AuditorAccessChecks == AccessChecks + [AuditorRole]
    ensures AccessChecks[0] == EditorAccessChecks[0] == AuditorAccessChecks[0] == AdminAccessChecks[0] == Login
  {
  }

  /** The evaluation of a profile, with its trace. */
  function EvaluateProfile(checks: seq<Check>, ctx: Context): Evaluation {
    ApplyRequirement(Requirements(checks), ctx, 0)
  }

  /** A profile passes iff each of its checks passes. */
  lemma ProfileGrantedIff(checks: seq<Check>, ctx: Context)
    ensures EvaluateProfile(checks, ctx).outcome.Granted? <==> forall j :: 0 <= j < |checks| ==> Evaluate(checks[j], ctx).Granted?
  {
    var e := EvaluateProfile(checks, ctx);
    var requirements := Requirements(checks);
    if e.outcome.Denied? {
      assert !Evaluate(checks[|e.trace| - 1], ctx).Granted?;
    }
  }

  /** hasAccess passes iff login, EUA, organization levels, user role and external roles all pass. */
  lemma AccessGranted(ctx: Context)
    ensures EvaluateProfile(AccessChecks, ctx).outcome.Granted? <==>
              RequiresLogin(ctx).Granted? && ctx.euaOutcome.Granted? && RequiresOrganizationLevels(ctx).Granted? &&
              ctx.hasRoles(["user"]) && RequiresExternalRoles(ctx).Granted?
  {
    ProfileGrantedIff(AccessChecks, ctx);
    assert Evaluate(AccessChecks[0], ctx) == RequiresLogin(ctx);
    assert Evaluate(AccessChecks[1], ctx) == ctx.euaOutcome;
    assert Evaluate(AccessChecks[2], ctx) == RequiresOrganizationLevels(ctx);
    assert Evaluate(AccessChecks[3], ctx) == RequiresUserRole(ctx);
    assert Evaluate(AccessChecks[4], ctx) == RequiresExternalRoles(ctx);
  }

  /** hasEditorAccess passes iff hasAccess passes and the user has the editor role. */
  lemma EditorAccessGranted(ctx: Context)
    ensures EvaluateProfile(EditorAccessChecks, ctx).outcome.Granted? <==>
              EvaluateProfile(AccessChecks, ctx).outcome.Granted? && ctx.hasRoles(["editor"])
  {
    ProfileGrantedIff(AccessChecks, ctx);
    ProfileGrantedIff(EditorAccessChecks, ctx);
    assert Evaluate(EditorAccessChecks[5], ctx) == RequiresEditorRole(ctx);
    assert forall j :: 0 <= j < 5 ==> EditorAccessChecks[j] == AccessChecks[j];
  }

  /** hasAuditorAccess passes iff hasAccess passes and the user has the auditor role. */
  lemma AuditorAccessGranted(ctx: Context)
    ensures EvaluateProfile(AuditorAccessChecks, ctx).outcome.Granted? <==>
              EvaluateProfile(AccessChecks, ctx).outcome.Granted? && ctx.hasRoles(["auditor"])
  {
    ProfileGrantedIff(AccessChecks, ctx);
    ProfileGrantedIff(AuditorAccessChecks, ctx);
    assert Evaluate(AuditorAccessChecks[5], ctx) == RequiresAuditorRole(ctx);
    assert forall j :: 0 <= j < 5 ==> AuditorAccessChecks[j] == AccessChecks[j];
  }

  /** hasAdminAccess passes iff login passes and the user has the admin role. */
  lemma AdminAccessGranted(ctx: Context)
    ensures EvaluateProfile(AdminAccessChecks, ctx).outcome.Granted? <==>
              RequiresLogin(ctx).Granted? && ctx.hasRoles(["admin"])
  {
    ProfileGrantedIff(AdminAccessChecks, ctx);
    assert Evaluate(AdminAccessChecks[0], ctx) == RequiresLogin(ctx);
    assert Evaluate(AdminAccessChecks[1], ctx) == RequiresAdminRole(ctx);
  }

  /**
   * Login runs first in every profile: when it rejects, the profile rejects
   * with the login error and nothing else is invoked.
   */
  lemma LoginRejectionStopsEveryProfile(checks: seq<Check>, ctx: Context)
    requires checks in {AccessChecks, EditorAccessChecks, AuditorAccessChecks, AdminAccessChecks}
    requires RequiresLogin(ctx).Denied?
    ensures EvaluateProfile(checks, ctx) == Evaluation(RequiresLogin(ctx), [0])
  {
    assert checks[0] == Login;
    RequiresAllFirstDenial(Requirements(checks), ctx, 0);
  }

  /**
   * A user who meets the base profile but lacks the editor role is refused
   * editor access with the missing-roles error, after all six checks ran.
   */
  lemma EditorRoleMissing(ctx: Context)
    requires EvaluateProfile(AccessChecks, ctx).outcome.Granted? && !ctx.hasRoles(["editor"])
    ensures EvaluateProfile(EditorAccessChecks, ctx) == Evaluation(Denied(MissingRoles), Span(0, 6))
  {
    ProfileGrantedIff(AccessChecks, ctx);
    assert forall j :: 0 <= j < 5 ==> EditorAccessChecks[j] == AccessChecks[j];
    RequiresAllFirstDenial(Requirements(EditorAccessChecks), ctx, 5);
  }

  /** hasAccess. */
  method HasAccess(ctx: Context) returns (action: GateAction)
    ensures action.CallNext? <==>
              RequiresLogin(ctx).Granted? && ctx.euaOutcome.Granted? && RequiresOrganizationLevels(ctx).Granted? &&
              ctx.hasRoles(["user"]) && RequiresExternalRoles(ctx).Granted?
    ensures EvaluateProfile(AccessChecks, ctx).outcome.Denied? ==>
              action == Respond(ErrorReply(EvaluateProfile(AccessChecks, ctx).outcome.error, ctx.config.exposeServerErrors))
  {
    action := HasAll(Requirements(AccessChecks), ctx);
    ProfileGrantedIff(AccessChecks, ctx);
    AccessGranted(ctx);
  }

  /** hasEditorAccess. */
  method HasEditorAccess(ctx: Context) returns (action: GateAction)
    ensures action.CallNext? <==> EvaluateProfile(AccessChecks, ctx).outcome.Granted? && ctx.hasRoles(["editor"])
    ensures EvaluateProfile(EditorAccessChecks, ctx).outcome.Denied? ==>
              action == Respond(ErrorReply(EvaluateProfile(EditorAccessChecks, ctx).outcome.error, ctx.config.exposeServerErrors))
  {
    action := HasAll(Requirements(EditorAccessChecks), ctx);
    ProfileGrantedIff(EditorAccessChecks, ctx);
    EditorAccessGranted(ctx);
  }

  /** hasAuditorAccess. */
  method HasAuditorAccess(ctx: Context) returns (action: GateAction)
    ensures action.CallNext? <==> EvaluateProfile(AccessChecks, ctx).outcome.Granted? && ctx.hasRoles(["auditor"])
    ensures EvaluateProfile(AuditorAccessChecks, ctx).outcome.Denied? ==>
              action == Respond(ErrorReply(EvaluateProfile(AuditorAccessChecks, ctx).outcome.error, ctx.config.exposeServerErrors))
  {
    action := HasAll(Requirements(AuditorAccessChecks), ctx);
    ProfileGrantedIff(AuditorAccessChecks, ctx);
    AuditorAccessGranted(ctx);
  }

  /** hasAdminAccess. */
  method HasAdminAccess(ctx: Context) returns (action: GateAction)
    ensures action.CallNext? <==> RequiresLogin(ctx).Granted? && ctx.hasRoles(["admin"])
    ensures EvaluateProfile(AdminAccessChecks, ctx).outcome.Denied? ==>
              action == Respond(ErrorReply(EvaluateProfile(AdminAccessChecks, ctx).outcome.error, ctx.config.exposeServerErrors))
  {
    action := HasAll(Requirements(AdminAccessChecks), ctx);
    ProfileGrantedIff(AdminAccessChecks, ctx);
    AdminAccessGranted(ctx);
  }
}
