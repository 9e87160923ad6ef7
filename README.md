# Access control, paging and error reporting of node-rest-starter

This project models the request-guarding core of node-rest-starter, a Node.js/Express REST server. It has six parts.

- **Requirements** (`authorization.dfy`, module `Authorization`). A requirement takes a request context and either passes (`Granted`) or rejects with an error record (`Denied`). The requirements are: login, roles, the user/editor/auditor/admin roles, external roles and organization levels.
- **Combinators and access profiles** (`user_controller.dfy`, module `UserController`):
  - `requiresAll` combines requirements with AND and short-circuits.
  - `requiresAny` combines them with OR and keeps the last error.
  - The `has`/`hasAll`/`hasAny` middleware adapters turn an outcome into either "call next" or an error response.
  - The four access profiles are `hasAccess`, `hasEditorAccess`, `hasAuditorAccess` and `hasAdminAccess`.
  - An `Evaluation` records the indices of the requirements that were invoked, in order, so short-circuiting is visible in the model.
- **The user profile controller** (`user_profile.dfy`, module `UserProfile`):
  - The rule for who may edit a profile (`canEditProfile`, `hasEdit`).
  - The page/size/sort handling of `searchUsers` and `matchUsers`, and the page record they answer with.
  - The two in-place user updates, modelled on a `UserDocument` class: `adminUpdateUser` with its new-user email rule, and `updateCurrentUser` with its current-password gate.
- **The utility service** (`util.dfy`, module `Util`):
  - Error reporting: `handleErrorResponse` with `getValidationErrors`, `getErrorMessage` and `getClientErrorMessage`.
  - The `validate*` predicates.
  - `getLimit`/`getPage`.
  - `contains` and `getHeaderField`.
  - `toMongoose`/`propToMongoose`, which rewrite `{$date}`/`{$obj}` marker objects.
- **The preference service** (`preferences.dfy`, module `Preferences`): the parameters of `search` and the skip/limit and page arithmetic of `doSearch`.
- **The messages service** (`messages.dfy`, module `Messages`): the recent-message window and the filter that drops dismissed messages in `getRecentMessages`.
- **Shared types** (`common.dfy`, module `Common`): `Option` (null/undefined), string truthiness, `Math.ceil` of a quotient, and the paged-result record.

Promises are modelled by their settled value. The injected collaborators are fields of the request `Context`: `User.hasRoles`, `authenticateAndLogin` and the EUA check.

Three behaviours of the code are worth knowing:
- `requiresExternalRoles` (user-authorization.controller.js:95) checks roles only when `bypassAccessCheck` is exactly `false`. A user without the flag passes.
- The preference search (preference.service.js:48-49) and `matchUsers` (user-profile.controller.js:232-233) default a sort direction to `ASC`, although the comment above each says `DESC`.
- `getLimit` answers 20 for a size that is not a number, even when the maximum is smaller. This is listed under Findings below.

## Model

| member | source | states |
|---|---|---|
| Authorization.RequiresLogin | src/app/core/user/auth/user-authorization.controller.js:35-49 | An authenticated request passes. Otherwise, with auto-login configured, the outcome is the auto-login outcome; without it, the request is rejected with 401 `no-login`. |
| Authorization.RequiresRoles | src/app/core/user/auth/user-authorization.controller.js:54-65 | For every context, the requirement passes iff the user has the roles. A rejection carries the given error, or 403 `missing-roles` when none is given. |
| Authorization.RequiresUserRole | src/app/core/user/auth/user-authorization.controller.js:68-73 | Passes iff the user has the `user` role. Otherwise it rejects with 403 `inactive`. |
| Authorization.RequiresEditorRole | src/app/core/user/auth/user-authorization.controller.js:76-78 | Passes iff the user has the `editor` role. Otherwise it rejects with `missing-roles`. |
| Authorization.RequiresAuditorRole | src/app/core/user/auth/user-authorization.controller.js:81-83 | Passes iff the user has the `auditor` role. Otherwise it rejects with `missing-roles`. |
| Authorization.RequiresAdminRole | src/app/core/user/auth/user-authorization.controller.js:86-88 | Passes iff the user has the `admin` role. Otherwise it rejects with `missing-roles`. |
| Authorization.Difference | src/app/core/user/auth/user-authorization.controller.js:101 | `_.difference`: its elements are exactly those of the first list that are not in the second, so it is non-empty iff such an element exists. |
| Authorization.RequiresExternalRoles | src/app/core/user/auth/user-authorization.controller.js:91-116 | Passes unless the bypass flag is exactly `false` and required roles are configured. In that case it passes iff every required role is among the user's external roles (none when they are not an array). Otherwise it rejects with 403 `noaccess`. |
| Authorization.RequiresOrganizationLevels | src/app/core/user/auth/user-authorization.controller.js:126-140 | Passes iff levels are not required, or the user is an admin, or the user has selected levels. Otherwise it rejects with 403 `requiredOrg`. |
| Authorization.DenialsPassThrough | src/app/common/util.service.js:55-89 | Every rejection the concrete requirements produce has a 4xx status. handleErrorResponse therefore sends it to the client unchanged. |
| UserController.ApplyRequirement | src/app/core/user/user.controller.js:56-74 | Requirements are invoked in index order. The result passes only after every requirement from `i` on has passed. Otherwise the result is the first rejection, and nothing after it is invoked. |
| UserController.RequiresAll | src/app/core/user/user.controller.js:56-74 | For every context, the result passes iff every requirement passes (so the empty list passes). A rejection is one of the requirements' own rejections. |
| UserController.RequiresAllEveryGranted | src/app/core/user/user.controller.js:56-74 | When all requirements pass, each one is invoked exactly once, in order. |
| UserController.RequiresAllFirstDenial | src/app/core/user/user.controller.js:56-74 | When requirement k is the first to reject, requiresAll rejects with k's error. Requirements 0..k were invoked and nothing after k. |
| UserController.RequiresAny | src/app/core/user/user.controller.js:90-119 | Passes iff the list is empty or some requirement passes, and invocation stops at the first one that passes. When all reject, every requirement was invoked and the result is the last requirement's error. |
| UserController.Adapt | src/app/core/user/user.controller.js:30-40 | The middleware calls `next` iff the outcome passes. Otherwise it answers with exactly handleErrorResponse's reply (`ErrorReply`) to the rejection. |
| UserController.Has | src/app/core/user/user.controller.js:30-40 | `has(requirement)` calls `next` iff the requirement passes. Otherwise it answers with handleErrorResponse's reply to the requirement's error. |
| UserController.HasAll | src/app/core/user/user.controller.js:45-54 | `hasAll` calls `next` iff every requirement passes. Otherwise it answers with handleErrorResponse's reply to the first rejection: some requirement k rejects, every requirement before k passed, and k's error is the one answered. |
| UserController.HasAny | src/app/core/user/user.controller.js:79-88 | `hasAny` calls `next` iff the list is empty or some requirement passes. Otherwise it answers with handleErrorResponse's reply to the last requirement's rejection. |
| UserController.Requirements | src/app/core/user/user.controller.js:128-180 | The requirement list of a profile evaluates, position by position, the named requirement functions. |
| UserController.ProfilesExtendBase | src/app/core/user/user.controller.js:128-168 | The editor and auditor profiles are the base profile plus one role check. Every profile starts with the login check. |
| UserController.ProfileGrantedIff | src/app/core/user/user.controller.js:128-180 | A profile passes iff each of its checks passes. |
| UserController.AccessGranted | src/app/core/user/user.controller.js:128-136 | hasAccess passes iff login, EUA, organization levels, the `user` role and the external roles all pass. |
| UserController.EditorAccessGranted | src/app/core/user/user.controller.js:143-152 | hasEditorAccess passes iff hasAccess passes and the user has the `editor` role. |
| UserController.AuditorAccessGranted | src/app/core/user/user.controller.js:159-168 | hasAuditorAccess passes iff hasAccess passes and the user has the `auditor` role. |
| UserController.AdminAccessGranted | src/app/core/user/user.controller.js:175-180 | hasAdminAccess passes iff login passes and the user has the `admin` role. Organization levels and external roles are not consulted. |
| UserController.LoginRejectionStopsEveryProfile | src/app/core/user/user.controller.js:128-180 | In all four profiles, a login rejection is the answer and no other check is invoked. |
| UserController.EditorRoleMissing | src/app/core/user/user.controller.js:143-152 | A user who meets the base profile but lacks `editor` is refused with `missing-roles`, after all six checks ran. |
| UserController.HasAccess | src/app/core/user/user.controller.js:128-136 | The middleware calls `next` iff the five base checks pass. Otherwise it answers with handleErrorResponse's reply to the profile's first rejection. |
| UserController.HasEditorAccess | src/app/core/user/user.controller.js:143-152 | The middleware calls `next` iff the base profile passes and the user is an editor. Otherwise it answers with handleErrorResponse's reply to the first rejection. |
| UserController.HasAuditorAccess | src/app/core/user/user.controller.js:159-168 | The middleware calls `next` iff the base profile passes and the user is an auditor. Otherwise it answers with handleErrorResponse's reply to the first rejection. |
| UserController.HasAdminAccess | src/app/core/user/user.controller.js:175-180 | The middleware calls `next` iff the user is logged in and is an admin. Otherwise it answers with handleErrorResponse's reply to the first rejection. |
| UserProfile.CanEditProfile | src/app/core/user/profile/user-profile.controller.js:413-415 | Editing is refused exactly for the `proxy-pki` strategy when the bypass flag is not `true`. |
| UserProfile.CanEditProfileCases | src/app/core/user/profile/user-profile.controller.spec.js:138-176 | Covers the six unit-test cases: local with the flag unset, false or true, and proxy-pki with the flag unset, false or true. |
| UserProfile.HasEdit | src/app/core/user/profile/user-profile.controller.js:420-431 | Passes iff canEditProfile holds for the configured strategy. Otherwise it rejects with 403 `not-authorized`, which is sent unchanged. |
| UserProfile.IsSearchForDeterminesSearch | src/app/core/user/profile/user-profile.controller.js:36-53 | The description of the search arguments fixes every field, so two searches meeting it for the same parameters are equal. |
| UserProfile.SearchParameters | src/app/core/user/profile/user-profile.controller.js:25-53 | Size defaults to 20 and is clamped into [1, 100]. Page defaults to 0 and is at least 0. The offset is page times size. A sort gives a one-element sort list with the given or default direction. |
| UserProfile.SearchUsersParameters | src/app/core/user/profile/user-profile.controller.js:36-53 | The same clamped size, page, offset and sort list as above, with DESC for a sort without a direction. |
| UserProfile.MatchUsersParameters | src/app/core/user/profile/user-profile.controller.js:224-241 | The same clamped size, page, offset and sort list as above, with ASC for a sort without a direction. |
| UserProfile.SearchPage | src/app/core/user/profile/user-profile.controller.js:58-70 | Each result is copied, in order. The page record reports the count, page and size, and its page count is the ceiling of count divided by size. |
| UserProfile.NewUserEmailDue | src/app/core/user/profile/user-profile.controller.js:351-355 | The new-user email is due iff the `user` role becomes `true` and was not `true` before. |
| UserProfile.UserDocument.AdminUpdate | src/app/core/user/profile/user-profile.controller.js:320-379 | Profile, roles and bypass flag are replaced, and the password only by a non-empty string. Notices are kept and the update time is stamped. The email flag is reported by the new-user rule. |
| UserProfile.UserDocument.UpdateCurrent | src/app/core/user/profile/user-profile.controller.js:103-174 | A non-empty new password whose current password fails to authenticate gives 400 "Current password invalid", and the stored document is unchanged because the request returns before the save. Otherwise profile and notices are replaced, the update time is stamped, and a non-empty new password is taken. Roles and bypass flag never change. |
| Util.ReportedErrors | src/app/common/util.service.js:15-28 | No more field errors are reported than there are entries. |
| Util.ReportedErrorsExact | src/app/common/util.service.js:15-28 | Every entry with a path is reported with its message, and every reported error comes from such an entry. |
| Util.RequiredFieldMessage | src/app/common/util.service.js:21 | A `required` issue is reported as "<field> is required". |
| Util.GetValidationErrors | src/app/common/util.service.js:15-28 | The loop yields exactly the reported errors, in key order, and nothing when there are no errors. |
| Util.Join | src/app/common/util.service.js:64 | Joining no parts gives the empty string, and joining one part gives that part. |
| Util.JoinAppend | src/app/common/util.service.js:64 | Appending a part to a non-empty list appends the separator and then the part, so the messages appear in order, separated by ", ". |
| Util.GetErrorMessage | src/app/common/util.service.js:30-45 | A string error is its own message. Otherwise the message is the error's message (default "unknown error"), prefixed in brackets to the stack when there is one. |
| Util.GetClientErrorMessage | src/app/common/util.service.js:47-53 | The full message when server errors are exposed. Otherwise "A server error has occurred.". |
| Util.ErrorReply | src/app/common/util.service.js:55-89 | The status is always in [400, 600], and the body is a server-error body iff the status is in [500, 600). Cases: a ValidationError gives 400 with the joined field messages; a missing or out-of-range status gives 500; a 5xx status gives a server-error body with the client message; any other error is sent unchanged. |
| Util.HandleErrorResponse | src/app/common/util.service.js:55-89 | The step-by-step rewriting of the error record, a missing error counting as `{}`, ends in exactly the reply `ErrorReply` describes. |
| Util.ValidateNumber | src/app/common/util.service.js:112-114 | Accepts exactly numbers. |
| Util.ValidatePositiveNumber | src/app/common/util.service.js:116-121 | Accepts exactly null and numbers at least 0. |
| Util.ValidateNonEmpty | src/app/common/util.service.js:123-125 | A string or array passes iff it is non-empty. Null, numbers and booleans never pass. |
| Util.ValidateArray | src/app/common/util.service.js:127-129 | Passes iff the value is a non-empty array. |
| Util.ValidArrayIsNonEmpty | src/app/common/util.service.js:123-129 | Whatever validateArray accepts, validateNonEmpty accepts. |
| Util.GetLimit | src/app/common/util.service.js:184-188 | As written. A size that is not a number gives 20. Any other size is clamped into [1, maxSize or 100]: an in-range size is kept, a larger one gives the maximum, a null or smaller one gives 1, and a missing size gives 20 (the maximum when that is below 20). |
| Util.GetLimitIgnoresMaxOnNaN | src/app/common/util.service.js:184-188 | With maxSize 10 and a non-numeric size, getLimit answers 20, above the maximum. |
| Util.GetLimitBounded | src/app/common/util.service.js:184-188 | The corrected limit always lies in [1, max(1, maxSize or 100)]. An in-range size is kept, a larger one gives the maximum, a null or smaller one gives 1, and a missing or non-numeric size gives 20 clamped. |
| Util.GetLimitBoundedAgrees | src/app/common/util.service.js:184-188 | Whenever the maximum is at least 20, the corrected limit equals getLimit. |
| Util.GetPage | src/app/common/util.service.js:195-198 | The page is never negative. A non-negative number is kept, and anything else gives 0. |
| Util.Contains | src/app/common/util.service.js:273-280 | The loop answers true iff the element is in the array. |
| Util.GetHeaderField | src/app/common/util.service.js:203-205 | Null iff the header or the field is missing. Otherwise it gives the field's value. |
| Util.StringProperty | src/app/common/util.service.js:226-229 | A marker is found iff some property of that name has a string value. |
| Util.Converted | src/app/common/util.service.js:239-263 | Arrays keep their length. Objects keep their keys, in order. Every other value is returned as it is. |
| Util.ConvertedIdentity | src/app/common/util.service.js:225-263 | A document with no `$date`/`$obj` marker anywhere is left unchanged by toMongoose. |
| Util.ToMongoose | src/app/common/util.service.js:239-263 | The loops over array items and object properties compute exactly the specified conversion. |
| Util.PropToMongoose | src/app/common/util.service.js:225-237 | A string `$date` becomes a date and a string `$obj` becomes an object id. Anything else is converted by toMongoose. |
| Preferences.Search | src/app/core/user/preferences/preference.service.js:41-58 | The page is getPage's. The limit is getLimit's with maximum 1000, equal there to the corrected limit, and lies in [1, 1000]. A sort is made iff the sort field is non-empty; its order is 1 iff the direction is `ASC` or missing, and -1 otherwise. |
| Preferences.DoSearchQuery | src/app/core/user/preferences/preference.service.js:13-23 | The sort is applied when given. Skip and limit are applied iff the limit is not 0, and the skip is page times limit. |
| Preferences.DoSearchResult | src/app/core/user/preferences/preference.service.js:25-34 | The page record reports the count, page and limit, and its page count is the ceiling of count divided by limit. |
| Preferences.SearchIsAlwaysPaged | src/app/core/user/preferences/preference.service.js:13-58 | A search always reaches the paged branch: it skips page times limit documents (never negative) and takes at most 1000. |
| Preferences.LowerCaseAscSortsDescending | src/app/core/user/preferences/preference.service.js:49-54 | The direction test is exact: `asc` sorts descending. |
| Messages.AllMessages | src/app/core/messages/messages.service.js:18-22 | Keeps exactly the stored messages created no earlier than now minus the time limit. |
| Messages.DismissedBy | src/app/core/messages/messages.service.js:24-26 | Keeps exactly the dismissals of the given user. |
| Messages.Unread | src/app/core/messages/messages.service.js:35-39 | Keeps exactly the messages that no dismissal names, and never grows. |
| Messages.UnreadPreservesOrder | src/app/core/messages/messages.service.js:35-39 | The filter distributes over concatenation, so relative order is kept. |
| Messages.UnreadKeepsUndismissed | src/app/core/messages/messages.service.js:35-39 | A list with no dismissed message passes the filter unchanged. |
| Messages.UnreadIdempotent | src/app/core/messages/messages.service.js:35-39 | Filtering twice is the same as filtering once. |
| Messages.GetRecentMessages | src/app/core/messages/messages.service.js:28-42 | A message is returned iff it is stored, recent and not dismissed by this user. No dismissal of the user names a returned message. |
| Messages.RecentNoLonger | src/app/core/messages/messages.service.js:18-22 | The recent window never has more messages than the store. |

## Left out

- Database access is not modelled: `User.search`, `containsQuery`, `find`, `count`, `save`, `remove`. Their results become parameters: counts, result lists and stored collections.
- Promises and `q` are modelled by their settled outcome, not by their asynchrony. Interleaving of concurrent requests is not modelled.
- Auditing and logging are left out. `auditService.audit` and `logger` only produce side effects outside the responses modelled here.
- `User.hasRoles`, `userAuthService.authenticateAndLogin` and `euaService.requiresEua` are left out. They are collaborators in other files and appear as fields of the request context.
- Clocks are parameters: `Date.now()` is the `now` parameter and `config.dismissedMessagesTimePeriod` is `timeLimit`.
- `dismissMessage` is not modelled. It only creates documents and audits them; its bookkeeping is a side effect of the audit promise.
- `submitRequest`/`submitPostRequest` are left out (HTTP I/O). So are `dateParse` and `getUserAgentFromHeader`: they parse dates and user agents through libraries outside this model.
- `toLowerCase`, `toProvenance` and `emailMatcher` are not modelled. They are small helpers with no contract in the core.
- `send400Error`, `send403Error` and `catchError` are left out. They write a fixed response and are outside the decision logic modelled here.
- `userById` and `runAsExternalId` are not modelled. They load users from the database.
- `new-user-email.service.js` is not part of this model. Only the decision to send the email is modelled; the "Email failed to send" answer after a failed send is not.
- The 400 answers of `updateCurrentUser` and `adminUpdateUser` for a missing user are left out. The `UserDocument` methods start from a loaded user.
- A request with no `req.user` is left out: the requirements would throw a TypeError in the source. The model always has a user record.
- `Util.Contains`: equality is Dafny value equality. Lodash's deep `_.isEqual`, for example on objects with keys in a different order, is not modelled.
- `Util.ToMongoose`: a `null` nested inside an array or object is excluded by the precondition `Convertible`. In the source it makes `propToMongoose` read a property of null and throw.
- `Util.GetLimit`, `Util.GetPage`, `UserProfile.SearchParameters`: only whole numbers, null, absence and "not a number" are modelled. The source's fractional numbers and string-to-number coercion are not; a NaN size or page in searchUsers is not modelled either.
- `Util.ValidateNumber`, `Util.ValidatePositiveNumber`: a JSON number (`Json.JNum`) is a whole number, so fractional inputs such as `validatePositiveNumber(0.5)`, which the source accepts, cannot be represented. NaN and infinities are not modelled either.
- `Util.ValidateNonEmpty`: an object's `length` property counts only when it is a number.
- Messages are compared by their string identifiers. `toString()` of an ObjectId is taken as given.

## Findings

| source | as written | input that shows it | evidently intended | confidence | as-written member | corrected member |
|---|---|---|---|---|---|---|
| src/app/common/util.service.js:184-188 | A size that is not a number returns the default 20 without clamping it to the maximum | `getLimit({size: 'abc'}, 10)` answers 20, above the maximum of 10 | The limit never exceeds `maxSize` (the non-numeric default clamped like a missing size) | low, not executed | Util.GetLimitIgnoresMaxOnNaN | Util.GetLimitBounded |
