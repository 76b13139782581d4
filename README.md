# chirp — a verified model of its account, follow and moderation core

chirp is a small Flask social-blogging site. Users register, confirm their
account by mailed token, write posts, comment, follow one another, and
moderators hide comments. This project models in Dafny the decision logic
around that:

- **Account forms.** `validators.dfy`, `auth_forms.dfy` and
  `profile_forms.dfy` model the WTForms validators and the forms of
  `app/auth/forms.py` and `app/main/forms.py`, including the inline
  duplicate checks against the stored users.
- **Roles and capabilities.** `permissions.dfy` models the five
  capabilities, the three seeded roles and the anonymous user.
- **Records and the store.** `accounts.dfy` holds the records (accounts,
  posts, comments), a symbolic salted password hash, and the claims an
  action token carries. `store.dfy` holds the store: a class `Db` whose
  methods are the ORM writes. Its invariant says that emails and usernames
  are unique, that every account has its self-follow edge, and that every
  edge joins two stored accounts.
- **Follow graph.** `follow_graph.dfy` models the follow relation as a set
  of directed (follower, followed) edges, with its counting lemmas.
- **Handlers.** `main_views.dfy` and `auth_views.dfy` model the handlers
  of the main and auth blueprints, as methods over the store. Each returns
  an `Outcome` saying how the handler answers: a redirect, a page, a 403,
  a 404.
- **Test scenarios.** `user_model_scenarios.dfy` replays the follow and
  token scenarios of `tests/test_user_model.py` on the model.

The User/Role/Follow model module (`app/models.py`) is not part of this
model. Its behaviour is taken from its call sites and from the assertions
of the test file:

- Every account gets its self-follow edge when it is created. The tests
  count it on users that were never confirmed.
- `update_email` succeeds only for the token's own user, and only when no
  account holds the new address.

Two parts of the source are outside code, so the model takes them as
parameters:

- **Tokens.** The token's signature and expiry are checked outside. A
  handler receives the token's claims, or `None` for a token that is
  tampered with or expired.
- **The `Email()` syntax check.** It comes from an external library, so
  the caller supplies it as `isEmail`.

## Model

| member | source | states |
|---|---|---|
| Validators.Lower | app/auth/views.py:24 | lowering keeps the length and lowers each ASCII capital by 32, leaving every other character alone |
| Validators.LowerIdempotent | app/auth/views.py:24 | a stored (already lowered) email is unchanged by lowering it again |
| Validators.LetterClass | app/auth/forms.py:9 | the class `[a-zA-Z]`, read from its literal text, holds exactly the ASCII letters |
| Validators.StarAll | app/auth/forms.py:9 | `[cls]*` matches a whole string exactly when every character is in the class |
| Validators.FullMatchMeaning | app/auth/forms.py:9 | `^[H][T]*$` matches exactly the strings with at least one character, a first character in H and all later characters in T |
| Permissions.DefaultRoleMatrix | tests/test_user_model.py:108-114 | the default role can FOLLOW, COMMENT and WRITE but cannot MODERATE or ADMIN |
| Permissions.ModeratorMatrix | tests/test_user_model.py:116-123 | a moderator can do everything except ADMIN |
| Permissions.AdministratorMatrix | tests/test_user_model.py:125-132 | an administrator can do all five |
| Permissions.AnonymousMatrix | tests/test_user_model.py:134-140 | an anonymous visitor can do none of the five |
| Permissions.RolesNested | tests/test_user_model.py:108-140 | the default role, moderator and administrator each grant strictly more than the one before |
| Accounts.PasswordRoundTrip | tests/test_user_model.py:30-33 | a password hash verifies the password it was made from and no other |
| Accounts.InitialRole | config.py:15 | a new account holds ADMIN exactly when its address is the administrator address read from `CHIRP_ADMIN`, and can always do whatever the default role can; the promotion rule itself is assumed (app/models.py is not part of this model) |
| Accounts.InitialRoleRule | tests/test_user_model.py:108-114 | with no administrator address configured (as in the tests) every new account has the default role; otherwise only that address is promoted, and a promoted account keeps every default capability |
| Accounts.SaltsSeparateHashes | tests/test_user_model.py:35-38 | the same password hashed under two different salts gives two different hashes; on the symbolic hash this is immediate from the salt being part of it |
| Accounts.UserNamed | app/main/views.py:179 | the account a username lookup finds; under the store invariant it is the only holder of that name, which is what Store.Db.FindByUsername returns |
| Accounts.UserWithEmail | app/auth/views.py:109 | the account an email lookup finds; under the store invariant it is the only holder of that address, which is what Store.Db.FindByEmail returns |
| Accounts.UpdateKeepsUnique | app/main/forms.py:30-36 | rewriting one account keeps emails and usernames unique when each new value is its old one or held by nobody |
| Accounts.InsertKeepsUnique | app/auth/forms.py:14-20 | adding an account whose email and username nobody holds keeps both unique |
| Accounts.ConfirmTokenBindsSubject | tests/test_user_model.py:47-54 | a confirmation token confirms the user it was issued to and no other |
| Accounts.ResetTokenBindsSubject | tests/test_user_model.py:64-70 | a reset token resets the account it was issued to, whenever that account is stored, and no other |
| Accounts.ChangeEmailTokenRule | tests/test_user_model.py:80-106 | an email-change token changes an account's address to the token's address exactly when the account is the one it was issued to and nobody holds that address |
| Accounts.TokensArePurposeScoped | tests/test_user_model.py:72-78 | a token of another purpose does nothing, and a tampered or expired token confirms, resets and changes nothing; each holds by unfolding the three token functions |
| Accounts.ChangeEmailGuard | tests/test_user_model.py:98-106 | an email change succeeds only with the user's own token, only to the token's address, and only when nobody holds that address |
| FollowGraph.WithoutUser | tests/test_user_model.py:202-204 | the edges left after deleting a user: a subset of the old ones, none touching the user; DeleteCount counts how many go |
| FollowGraph.FollowingIsFollowedByConverse | tests/test_user_model.py:182-184 | `a.is_following(b)` holds exactly when `b.is_followed_by(a)` does; this is immediate from the two definitions over one edge set |
| FollowGraph.SelfEdgesCount | tests/test_user_model.py:197 | a graph of self-edges only has one edge per user |
| Store.OnlySelfEdgesCount | tests/test_user_model.py:197 | in a consistent store where nobody follows anybody else, `Follow.query.count()` equals the number of accounts |
| FollowGraph.FollowAddsOne | tests/test_user_model.py:185-186 | a new follow adds one edge to the follower's `followed` and one to the followed user's `followers`, and changes no other user's lists |
| FollowGraph.UnfollowRemovesOne | tests/test_user_model.py:195-196 | removing a follow takes one edge from each of the two lists and changes no other user's lists |
| FollowGraph.DeleteCount | tests/test_user_model.py:202-204 | deleting a user removes as many edges as its followed and followers lists hold, with the self-edge counted once |
| Store.Db.constructor | tests/test_user_model.py:13 | a new store is empty and satisfies the store invariant |
| Store.Db.FindByUsername | app/main/views.py:179 | finds the account with that exact username, or none exactly when nobody holds it |
| Store.Db.FindByEmail | app/auth/views.py:109 | finds the account with that exact email, or none exactly when nobody holds it |
| Store.Db.AddUser | app/auth/views.py:24-26 | stores a new account under a fresh id together with its self-follow edge, keeping the invariant when the email and username are free |
| Store.Db.SetAccount | app/main/views.py:120-128 | rewrites one account and nothing else, keeping uniqueness when the new email and username are unchanged or free |
| Store.Db.AddEdge | app/main/views.py:186-187 | adds exactly the edge (a, b) |
| Store.Db.RemoveEdge | app/main/views.py:203-204 | removes exactly the edge (a, b), which is never a self-edge |
| Store.Db.DeleteUser | tests/test_user_model.py:202-203 | removes the account and every edge that mentions it, and nothing else |
| Store.Db.AddPost | app/main/views.py:14-16 | stores a new post under a fresh id |
| Store.Db.SetPost | app/main/views.py:166-168 | rewrites one post and nothing else |
| Store.Db.AddComment | app/main/views.py:146-148 | stores a new comment under a fresh id |
| Store.Db.SetCommentDisabled | app/main/views.py:61-64 | sets one comment's `disabled` flag and changes nothing else |
| AuthForms.UsernameClass | app/auth/forms.py:9 | `[a-zA-Z0-9_.]` holds exactly the ASCII letters, the digits, `_` and `.` |
| AuthForms.UpdateUsernameClassAsWritten | app/auth/forms.py:59 | `[a-zA_Z0-9_.]` holds the lowercase letters, only `A` and `Z` of the capitals, the digits, `_` and `.` |
| AuthForms.RegisterUsernameRegexMeaning | app/auth/forms.py:9 | the registration pattern matches a letter followed by letters, digits, `_` and `.` only |
| AuthForms.UpdateUsernameRegexAsWrittenMeaning | app/auth/forms.py:59 | the update pattern as written rejects any capital other than `A` or `Z` after the first character |
| AuthForms.LetterIsData | app/auth/forms.py:9 | a string starting with a letter is never blank, so the pattern implies DataRequired |
| AuthForms.NewPasswordRule | app/auth/forms.py:10 | a new password with its confirmation is accepted exactly when it is 8..20 long, not blank, and equal to the confirmation (the same fields also at lines 32 and 43) |
| AuthForms.RegisterUsernameRule | app/auth/forms.py:9 | a registration username is accepted exactly when it is 3..20 long and matches the pattern, and no stored username is identical to it (the check at lines 18-20) |
| AuthForms.RegisterRejectsStoredEmail | app/auth/forms.py:14-16 | registration refuses any email whose lowercase form is stored, whatever case it is typed in |
| AuthForms.RegisterBounds | app/auth/forms.py:8-10 | an accepted registration has a 1..64 email, a 3..20 username and an 8..20 password equal to its confirmation |
| AuthForms.UpdateEmailIgnoresCase | app/auth/forms.py:53-55 | the update-email duplicate check compares the raw input, so "A@b.co" passes while "a@b.co" is stored |
| AuthForms.UpdateUsernameAsWrittenRejectsCapitals | app/auth/forms.py:59 | the form as written refuses the free username "abB" that registration accepts, and its pattern refuses "aB" |
| AuthForms.UpdateUsernameRule | app/auth/forms.py:58-65 | the intended update-username form accepts exactly the registration username rule plus a non-blank password |
| ProfileForms.NameLeqTotal | app/main/forms.py:28 | any two role names are ordered one way or the other |
| ProfileForms.InsertByName | app/main/forms.py:28 | inserting a role row into a name-ordered list keeps it ordered and adds exactly that row |
| ProfileForms.RoleChoices | app/main/forms.py:28 | the role menu is ordered by name and holds exactly the stored role rows, each as often as stored |
| ProfileForms.RoleChoicesCoverRoles | app/main/forms.py:28 | a role is on the menu exactly when it is stored |
| ProfileForms.AdminUsernameClass | app/main/forms.py:17 | `[a-zA-Z_.]` holds exactly the ASCII letters, `_` and `.` |
| ProfileForms.AdminEmailRule | app/main/forms.py:30-32 | the admin editor accepts an email exactly when it is well formed, at most 64 long, and either the edited user's own address or held by nobody |
| ProfileForms.AdminUsernameRule | app/main/forms.py:34-36 | the admin editor accepts a username exactly when it is 1..64 long, matches the pattern of line 17, and is either unchanged or held by nobody |
| ProfileForms.AdminUsernameHasNoDigits | app/main/forms.py:17 | a username the admin editor accepts contains no digit |
| ProfileForms.AdminAcceptsUnchanged | app/main/forms.py:31 | the edited user's current email and username pass the duplicate checks even though they are stored |
| ProfileForms.ProfileLengths | app/main/forms.py:9-10 | name and location are at most 64 long in both profile editors (the admin editor at lines 16 and 20) |
| MainViews.Home | app/main/views.py:10-28 | a post is created exactly when the viewer can WRITE and the body is not blank, stored under the viewer; otherwise the listing is shown, never the followed one for an anonymous visitor whatever the cookie holds, and nothing changes |
| MainViews.Moderate | app/main/views.py:57-76 | anonymous gives login required, no MODERATE gives 403, a missing comment 404; otherwise only that comment's flag is set |
| MainViews.ModerationIsLocal | app/main/views.py:60-76 | moderation keeps the set of comments, sets the named flag and leaves every other comment and field as it was; this reads back the map update the handler makes |
| MainViews.LastPage | app/main/views.py:153 | for n >= 1 items the page `(n-1)//per_page + 1` is the one holding the last item: (page-1)*per_page < n <= page*per_page; for n = 0 it is 0 |
| MainViews.NewCommentOnLastPage | app/main/views.py:150-153 | a new comment makes its post's count n one larger, and the page the -1 redirect lands on covers position n of the post's n comments |
| MainViews.ShowPost | app/main/views.py:141-156 | a missing post is 404; a non-blank comment from a signed-in user is stored under the user; otherwise the requested page is shown, the last page for -1 |
| MainViews.EditPostAsWrittenNeedsBoth | app/main/views.py:162-163 | as written, only an author who is also an administrator may edit, so a default-role author is refused |
| MainViews.EditPostRule | app/main/views.py:162 | with the intended test, visitors never edit, authors and administrators always may, and nobody else may |
| MainViews.EditPost | app/main/views.py:159-172 | a missing post is 404, an unauthorised editor 403, and a non-blank body replaces only that post's body |
| MainViews.FollowEdges | app/main/views.py:183-186 | after `follow` the edge is present and no other edge has changed |
| MainViews.UnfollowSelfAsWrittenDropsSelfEdge | app/main/views.py:200-203 | as written, unfollowing oneself deletes one's own self-edge and breaks the store invariant |
| MainViews.UnfollowEdges | app/main/views.py:200-203 | after the intended `unfollow` the edge to another user is gone, no other edge has changed, and the self-edge stays |
| MainViews.FollowUnfollowRoundTrip | tests/test_user_model.py:178-196 | `follow` then `unfollow` of another user restores the edge set (and `unfollow` then `follow` does too), with the follow adding one to each count first |
| MainViews.FollowUnfollowKeepConsistent | app/main/views.py:186 | following and the intended unfollowing keep the store invariant |
| MainViews.FollowUser | app/main/views.py:175-189 | an unknown user or an existing follow leaves the graph unchanged; otherwise exactly one edge (viewer, target) is added |
| MainViews.UnfollowUser | app/main/views.py:192-206 | an unknown user, a user not followed, or oneself leaves the graph unchanged; otherwise exactly the one edge is removed |
| MainViews.EditProfile | app/main/views.py:95-110 | a valid submission rewrites only the viewer's name, location and about-me |
| MainViews.EditProfileAdmin | app/main/views.py:113-138 | given role rows with distinct ids (the primary key `Role.query.get` looks up), an administrator's valid submission rewrites the target account with the one role stored under the chosen id; uniqueness is kept |
| AuthViews.GateSparesAnonymousAndConfirmed | app/auth/views.py:14-17 | anonymous visitors and confirmed users are never redirected by the gate |
| AuthViews.GateSparesAuthAndStatic | app/auth/views.py:16 | auth-blueprint requests and static files always pass the gate |
| AuthViews.BeforeRequest | app/auth/views.py:12-17 | a signed-in user's last-seen time is updated first, then an unconfirmed user outside auth and static is redirected; nothing else changes |
| AuthViews.Unconfirmed | app/auth/views.py:69-74 | the page either renders or redirects home |
| AuthViews.GateLeadsToUnconfirmedPage | app/auth/views.py:16-17 | everyone the gate redirects is shown the unconfirmed page, which the gate then lets through, and only signed-in unconfirmed users see it |
| AuthViews.ResendConfirmation | app/auth/views.py:77-86 | a new confirmation mail goes to the user's own address exactly when the user is signed in and unconfirmed |
| AuthViews.ResendMatchesUnconfirmedPage | app/auth/views.py:79-86 | the resend is offered to exactly the users shown the unconfirmed page |
| AuthViews.Register | app/auth/views.py:20-31 | a valid form stores a new unconfirmed account with the lowered email, the hashed password, the role the address starts with, and its self-edge; otherwise nothing changes |
| AuthViews.RegisteredAccountShape | app/auth/views.py:24 | the created account's email has no capitals, it is unconfirmed, its hash verifies exactly the chosen password, and it is an administrator exactly when its address is the configured one |
| AuthViews.LoginAsWrittenRejectsRegisteredCase | app/auth/views.py:38 | as written, a user who registered as "Ann@x.io" cannot sign in by typing it again, while the lowered lookup signs them in |
| AuthViews.Login | app/auth/views.py:34-45 | sign-in succeeds exactly when the form is valid, an account holds the lowered address and the password verifies; the store is not changed |
| AuthViews.Confirm | app/auth/views.py:56-66 | an already-confirmed user changes nothing; otherwise the account is confirmed exactly when the token is a confirmation token for that user |
| AuthViews.UpdatePassword | app/auth/views.py:89-102 | the password changes, to the new one only, exactly when the form is valid and the old password verifies |
| AuthViews.ResetPasswordRequest | app/auth/views.py:105-116 | a reset mail is due exactly when an account holds the lowered address, and it names that account |
| AuthViews.ResetPassword | app/auth/views.py:119-132 | a signed-in user is sent home untouched; otherwise only the account a valid reset token names gets the new password |
| AuthViews.UpdateEmailRequest | app/auth/views.py:135-149 | an email-change mail for the lowered address is due exactly when the form is valid and the password verifies; the store is not changed |
| AuthViews.UpdateEmailToken | app/auth/views.py:152-161 | only the user's own email-change token to a free address changes the email, and only that field |
| AuthViews.MixedCaseEmailChangeRefusedAtToken | app/auth/views.py:141-143 | any address that no account holds as typed but whose lowered form is stored passes the update-email form (app/auth/forms.py:53-55), yet the token the request mails for its lowered form is refused |
| AuthViews.UpdateUsername | app/auth/views.py:164-176 | the username changes exactly when the intended form is valid and the password verifies |
| UserModelScenarios.FollowsScenarioGraphs | tests/test_user_model.py:169-204 | the edge sets of the follow test have the asserted follow relations and counts |
| UserModelScenarios.TwoUsers | tests/test_user_model.py:170-174 | two new accounts give a store with exactly their two self-edges |
| UserModelScenarios.FollowsScenario | tests/test_user_model.py:169-204 | the follow test on the store: neither user follows at first; after a follow, counts 2 and 2; after an unfollow, 1, 1 and 2 edges in total; after the delete, 1 edge |
| UserModelScenarios.ConfirmationScenarios | tests/test_user_model.py:40-62 | a user's own confirmation token confirms it; another user's token and an expired token do not |
| UserModelScenarios.OneUser | tests/test_user_model.py:64-67 | a new account gives a store holding exactly that account |
| UserModelScenarios.ValidResetScenario | tests/test_user_model.py:64-70 | through the reset handler, the account's own reset token resets the password: the new one verifies and the old one no longer does |
| UserModelScenarios.TamperedResetScenario | tests/test_user_model.py:72-78 | through the reset handler, a tampered token is refused and the old password still verifies |
| UserModelScenarios.ValidEmailChangeScenario | tests/test_user_model.py:80-86 | through the token handler, the user's own email-change token moves the account to the new address |
| UserModelScenarios.ForeignEmailChangeScenario | tests/test_user_model.py:88-96 | another user's email-change token changes nothing |
| UserModelScenarios.DuplicateEmailScenario | tests/test_user_model.py:98-106 | a token for an address another account holds changes nothing |

## Findings

| source | as written | input that shows it | evidently intended | confidence | as-written member | corrected member |
|---|---|---|---|---|---|---|
| app/auth/forms.py:59 | the update-username class is `[a-zA_Z0-9_.]`, so `A_Z` is three characters and not a range | username "abB" (free), which registration accepts | `[a-zA-Z0-9_.]`, the registration class, as the form's message says | high; not executed | AuthForms.UpdateUsernameAsWrittenRejectsCapitals | AuthForms.UpdateUsernameRule |
| app/main/views.py:162 | `current_user != post.author or not current_user.can(ADMIN)` aborts | the author of a post, with the default role, opening its edit page | `and`: the author or an administrator may edit | high; not executed | MainViews.EditPostAsWrittenNeedsBoth | MainViews.EditPostRule |
| app/main/views.py:200-203 | `unfollow` checks only `is_following`, which holds for one's own self-edge | a signed-in user opening `/unfollow/<own username>` | the self-edge is never touched by follow or unfollow | medium (the User model is not part of this model); not executed | MainViews.UnfollowSelfAsWrittenDropsSelfEdge | MainViews.FollowUnfollowKeepConsistent |
| app/auth/views.py:38 | login looks the address up as typed, while registration stores it lowered (line 24) | register as "Ann@x.io", then log in with "Ann@x.io" | look up `form.email.data.lower()`, as the reset request does (line 109) | high; not executed | AuthViews.LoginAsWrittenRejectsRegisteredCase | AuthViews.Login |

The handlers use the corrected behaviour. `MainViews.EditPost` uses
`MayEditPost`, `MainViews.UnfollowUser` refuses to unfollow oneself,
`AuthViews.Login` lowers the address and `AuthViews.UpdateUsername` uses
the registration pattern.

## Left out

- app/models.py is not part of this model. User, Role, Follow, the password
  hash and the tokens are modelled from their call sites and from the tests.
- Password hashing is symbolic: `Hashed(salt, secret)`, with the salt
  passed in by the caller. It has no cryptographic strength, and the random
  salt of the source is not modelled.
- Token signing and expiry are done by an external library. A handler
  receives the decoded claims, or `None`, so a wall-clock expiry such as
  tests/test_user_model.py:56-62 appears only as `None`.
- `Email()` is an external library check, supplied as the predicate
  `isEmail`.
- The patterns are whole-string matches. In Python's `re`, `$` also matches
  before a final newline, so "abc\n" would pass the source's regex but not
  the model's.
- Lowering covers only ASCII. Likewise DataRequired's whitespace test
  (`str.strip`) is limited to ASCII whitespace.
- Not modelled (I/O): rendering, flash messages, redirect targets, cookies
  being set (`show_all`, `show_follow`), the session, `logout`, `send_email`
  and the login's `next` redirect.
- Listing handlers are not modelled: `moderate`, `profile`, `followers` and
  `followed_by` only read and paginate. Pagination (page sizes 10 and 50,
  `error_out=False`) is left out, except for the page number `post`
  computes.
- Timestamps are left out: `member_since`, the post, comment and follow
  timestamps and the ordering they give, plus gravatar URLs and `to_json`
  (tests/test_user_model.py:142-167, 187-191, 206-215). `ping` is modelled
  only as storing the `now` it is given.
- Store.Db.DeleteUser: does not remove the user's posts or comments. Those
  cascades are defined in app/models.py, which is not part of this model.
- AuthViews.UpdateEmailToken: models the test's `user.update_email(token)`,
  using the token's address and the current user. The handler instead
  calls `User.update_email(token, session['new_email'])` on the class, and
  app/models.py, which would settle what that call means, is not part of
  this model.
- AuthViews.ResetPasswordRequest: does not model the mail's recipient. The
  source mails the address as typed, not the lowered one.
- AuthViews.Register: the starting role follows the configured administrator
  address (config.py:15) by assumption. The rule that reads that setting is
  in app/models.py, which is not part of this model.
- MainViews.EditPost: models the corrected test (author or administrator).
  The `or` of app/main/views.py:162 as written appears only in
  `MayEditPostAsWritten`.
- AuthViews.Login: models the corrected lookup of the lowered address. The
  raw-address lookup of app/auth/views.py:38 as written appears only in
  `LoginAcceptsAsWritten`.
- AuthViews.UpdateUsername: models the corrected username pattern (the
  registration one). The `[a-zA_Z0-9_.]` class of app/auth/forms.py:59 as
  written appears only in `UpdateUsernameValidAsWritten`.
- MainViews.UnfollowUser: models the corrected guard. The store's invariant
  forbids removing a self-edge, so the as-written self-unfollow is shown
  only on the edge-set function `UnfollowEdgesAsWritten`.
- MainViews.ShowPost: an anonymous visitor's comment is answered with
  `ServerError`. The source passes the anonymous user object as the
  comment's author, and what the store then does is defined in
  app/models.py.
- The test users of tests/test_user_model.py:169-204 have no username. The
  scenario gives them distinct usernames, because the store keeps
  usernames unique.
