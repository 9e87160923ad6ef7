/**
 * The profile-edit rule, the paging of the user searches and the in-place
 * user updates of the user profile controller
 * (src/app/core/user/profile/user-profile.controller.js).
 */
module UserProfile {
  import opened Common
  import opened Util
  import opened Authorization

  /*=====================================
   * canEditProfile, hasEdit
   *====================================*/

  /** canEditProfile: only proxy-pki users without an explicit bypass may not edit. */
  predicate CanEditProfile(authStrategy: string, user: UserRecord)
    ensures !CanEditProfile(authStrategy, user) <==> authStrategy == "proxy-pki" && user.bypassAccessCheck != Some(true)
  {
    authStrategy != "proxy-pki" || user.bypassAccessCheck == Some(true)
  }

  /** The six cases of the controller's unit tests. */
  lemma CanEditProfileCases()
    ensures CanEditProfile("local", UserRecord(None, None, None))
    ensures CanEditProfile("local", UserRecord(None, None, Some(false)))
    ensures CanEditProfile("local", UserRecord(None, None, Some(true)))
    ensures !CanEditProfile("proxy-pki", UserRecord(None, None, None))
    ensures !CanEditProfile("proxy-pki", UserRecord(None, None, Some(false)))
    ensures CanEditProfile("proxy-pki", UserRecord(None, None, Some(true)))
  {
  }

  const NotAuthorizedToEdit := Rejection(403, "not-authorized", "User not authorized to edit their profile")

  /** hasEdit: a requirement that passes iff the configured strategy lets the user edit. */
  function HasEdit(ctx: Context): (o: Outcome)
    ensures o.Granted? <==> CanEditProfile(ctx.config.strategy, ctx.user)
    ensures o.Denied? ==> o.error == NotAuthorizedToEdit && PassesThrough(o.error)
  {
    if CanEditProfile(ctx.config.strategy, ctx.user) then Granted else Denied(NotAuthorizedToEdit)
  }

  /*=====================================
   * searchUsers, matchUsers
   *====================================*/

  datatype SortOrder = SortOrder(property: string, direction: string)

  /** The arguments handed to the user search, and the page and size reported back. */
  datatype UserSearch = UserSearch(page: int, size: int, limit: int, offset: int, sortArr: Option<seq<SortOrder>>)

  /**
   * What the searches hand to the user search for the query parameters:
   * size defaults to 20 and is clamped into [1, 100], page defaults to 0 and
   * is at least 0, the offset is page * size, and a sort gets `defaultDir`
   * when no direction is given.
   */
  predicate IsSearchFor(page: Option<int>, size: Option<int>, sort: Option<string>, dir: Option<string>,
                        defaultDir: string, s: UserSearch)
  {
    && 1 <= s.size <= 100 && 0 <= s.page
    && (size.None? ==> s.size == 20)
    && (size.Some? ==> s.size == if size.value < 1 then 1 else if size.value > 100 then 100 else size.value)
    && (page.Some? && page.value >= 0 ==> s.page == page.value)
    && (page.None? || page.value < 0 ==> s.page == 0)
    && s.limit == s.size && s.offset == s.page * s.size
    && (s.sortArr.Some? <==> sort.Some?)
    && (sort.Some? ==> s.sortArr.value == [SortOrder(sort.value, if dir.Some? then dir.value else defaultDir)])
  }

  /** The description leaves nothing open: it fixes every field of the search. */
  lemma IsSearchForDeterminesSearch(page: Option<int>, size: Option<int>, sort: Option<string>, dir: Option<string>,
                                    defaultDir: string, s1: UserSearch, s2: UserSearch)
    requires IsSearchFor(page, size, sort, dir, defaultDir, s1) && IsSearchFor(page, size, sort, dir, defaultDir, s2)
    ensures s1 == s2
  {
  }

  /** The parameter handling shared by searchUsers and matchUsers. */
  method SearchParameters(page: Option<int>, size: Option<int>, sort: Option<string>, dir: Option<string>, defaultDir: string)
    returns (s: UserSearch)
    ensures IsSearchFor(page, size, sort, dir, defaultDir, s)
  {
    var sz := if size.None? then 20 else size.value;
    sz := Max(1, Min(100, sz));

    var pg := if page.None? then 0 else page.value;
    pg := Max(0, pg);

    var direction := dir;
    if sort.Some? && direction.None? {
      direction := Some(defaultDir);
    }

    var sortArr := None;
    if sort.Some? {
      sortArr := Some([SortOrder(sort.value, direction.value)]);
    }
    s := UserSearch(pg, sz, sz, pg * sz, sortArr);
  }

  /** The parameters of searchUsers (and adminSearchUsers): a sort defaults to DESC. */
  method SearchUsersParameters(page: Option<int>, size: Option<int>, sort: Option<string>, dir: Option<string>)
    returns (s: UserSearch)
    ensures IsSearchFor(page, size, sort, dir, "DESC", s)
    ensures sort.Some? && dir.None? ==> s.sortArr == Some([SortOrder(sort.value, "DESC")])
  {
    s := SearchParameters(page, size, sort, dir, "DESC");
  }

  /** The parameters of matchUsers: a sort defaults to ASC. */
  method MatchUsersParameters(page: Option<int>, size: Option<int>, sort: Option<string>, dir: Option<string>)
    returns (s: UserSearch)
    ensures IsSearchFor(page, size, sort, dir, "ASC", s)
    ensures sort.Some? && dir.None? ==> s.sortArr == Some([SortOrder(sort.value, "ASC")])
  {
    s := SearchParameters(page, size, sort, dir, "ASC");
  }

  /**
   * The success callback of the searches: each result is copied, in order,
   * and the page record reports the count, the page, the size and the number
   * of pages.
   */
  method SearchPage<R, U>(count: nat, results: seq<R>, copyUser: R -> U, page: int, size: int)
    returns (toReturn: PagedResult<U>)
    requires size >= 1
    ensures toReturn.totalSize == count && toReturn.pageNumber == page && toReturn.pageSize == size
    ensures (toReturn.totalPages - 1) * size < count <= toReturn.totalPages * size
    ensures |toReturn.elements| == |results|
    ensures forall i :: 0 <= i < |results| ==> toReturn.elements[i] == copyUser(results[i])
  {
    var users: seq<U> := [];
    var i := 0;
    while i < |results|
      invariant 0 <= i <= |results|
      invariant |users| == i
      invariant forall j :: 0 <= j < i ==> users[j] == copyUser(results[j])
    {
      users := users + [copyUser(results[i])];
      i := i + 1;
    }
    toReturn := PagedResult(count, page, size, CeilDiv(count, size), users);
  }

  /*=====================================
   * adminUpdateUser, updateCurrentUser
   *====================================*/

  /** The profile fields both updates copy from the request body. */
  datatype Profile = Profile(
    name: Option<string>,
    organization: Option<string>,
    email: Option<string>,
    phone: Option<string>,
    username: Option<string>)

  /** The user-interface state only updateCurrentUser copies. */
  datatype Notices = Notices(
    messagesAcknowledged: Option<int>,
    alertsViewed: Option<int>,
    openSidebar: Option<bool>,
    newFeatureDismissed: Option<int>)

  datatype AdminUpdateBody = AdminUpdateBody(
    profile: Profile,
    roles: Option<map<string, bool>>,
    bypassAccessCheck: Option<bool>,
    password: Option<string>)

  datatype CurrentUserBody = CurrentUserBody(
    profile: Profile,
    notices: Notices,
    password: Option<string>,
    currentPassword: Option<string>)

  /** `_.get(user, 'roles.user', null)`. */
  function UserRoleFlag(roles: Option<map<string, bool>>): Option<bool> {
    if roles.Some? && "user" in roles.value then Some(roles.value["user"]) else None
  }

  /** The new-user email rule: sent exactly when the user role is newly turned on. */
  predicate NewUserEmailDue(before: Option<bool>, after: Option<bool>)
    ensures NewUserEmailDue(before, after) <==> after == Some(true) && before != Some(true)
  {
    before != after && after.Some? && after.value
  }

  /** What updateCurrentUser answers once the user document is loaded. */
  datatype UpdateReply = Saved | PasswordRejected(status: int, message: string)

  /** A stored user document, updated in place by the two update endpoints. */
  class UserDocument {
    var profile: Profile
    var notices: Notices
    var roles: Option<map<string, bool>>
    var bypassAccessCheck: Option<bool>
    var password: string
    var updated: int

    constructor (profile: Profile, notices: Notices, roles: Option<map<string, bool>>, bypassAccessCheck: Option<bool>, password: string, updated: int)
      ensures this.profile == profile && this.notices == notices && this.roles == roles
      ensures this.bypassAccessCheck == bypassAccessCheck && this.password == password && this.updated == updated
    {
      this.profile := profile;
      this.notices := notices;
      this.roles := roles;
      this.bypassAccessCheck := bypassAccessCheck;
      this.password := password;
      this.updated := updated;
    }

    /**
     * adminUpdateUser: copies the profile, the roles and the bypass flag,
     * replaces the password only with a non-empty string, stamps the update
     * time, and reports whether the new-user email is to be sent.
     */
    method AdminUpdate(body: AdminUpdateBody, now: int) returns (emailNewUser: bool)
      modifies this
      ensures profile == body.profile && roles == body.roles && bypassAccessCheck == body.bypassAccessCheck
      ensures password == if Truthy(body.password) then body.password.value else old(password)
      ensures notices == old(notices) && updated == now
      ensures emailNewUser <==> NewUserEmailDue(UserRoleFlag(old(roles)), UserRoleFlag(body.roles))
    {
      var originalUserRole := UserRoleFlag(roles);

      profile := body.profile;
      roles := body.roles;
      bypassAccessCheck := body.bypassAccessCheck;

      if Truthy(body.password) {
        password := body.password.value;
      }

      var newUserRole := UserRoleFlag(roles);
      emailNewUser := originalUserRole != newUserRole && newUserRole.Some? && newUserRole.value;

      updated := now;
    }

    /**
     * updateCurrentUser: copies the profile and notice fields and stamps the
     * update time; a non-empty new password is taken only when the current
     * password authenticates. Otherwise the answer is 400 and the request
     * returns before the save, so the stored document keeps every field (the
     * loaded copy it had already changed is discarded). `authenticate` stands
     * for user.authenticate.
     */
    method UpdateCurrent(body: CurrentUserBody, authenticate: Option<string> -> bool, now: int) returns (reply: UpdateReply)
      modifies this
      ensures reply.PasswordRejected? <==> Truthy(body.password) && !authenticate(body.currentPassword)
      ensures reply.PasswordRejected? ==> reply == PasswordRejected(400, "Current password invalid")
      ensures reply.PasswordRejected? ==>
                profile == old(profile) && notices == old(notices) && updated == old(updated) && password == old(password)
      ensures reply.Saved? ==> profile == body.profile && notices == body.notices && updated == now
      ensures reply.Saved? ==> password == if Truthy(body.password) then body.password.value else old(password)
      ensures roles == old(roles) && bypassAccessCheck == old(bypassAccessCheck)
    {
      if Truthy(body.password) && !authenticate(body.currentPassword) {
        return PasswordRejected(400, "Current password invalid");
      }

      profile := body.profile;
      notices := body.notices;
      updated := now;
      if Truthy(body.password) {
        password := body.password.value;
      }
      reply := Saved;
    }
  }
}
