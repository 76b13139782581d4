/**
 * The handlers of the auth blueprint: the gate every request passes, account
 * creation and sign-in, confirmation, and the credential changes. A handler's
 * form submission is `None` for a plain GET and `Some(fields)` for a POST.
 * Token checking (signature and expiry) happens outside: a handler receives
 * the token's claims, or None for a tampered or expired token. Sending mail
 * is left out; where a handler mails a token, the Outcome says to whom.
 */
module AuthViews {
  import opened Wrappers
  import opened Validators
  import opened Permissions
  import opened Accounts
  import opened FollowGraph
  import opened Store
  import opened AuthForms

  datatype Outcome =
    | LoginRequired
    | Proceed
    | RedirectUnconfirmed
    | AccountCreated(id: UserId)
    | SignedInAs(id: UserId)
    | InvalidCredentials
    | AlreadyConfirmed
    | AccountConfirmed
    | TokenRejected
    | RedirectHome
    | UnconfirmedPage
    | ConfirmationMailed(to: string)
    | PasswordUpdated
    | WrongPassword
    | ResetMailSent(id: UserId)
    | InvalidEmail
    | PasswordReset
    | EmailChangeMailed(newEmail: string)
    | EmailUpdated
    | UsernameUpdated
    | ShowForm

  // ---- before_request

  /**
   * The gate: a signed-in user who has not confirmed is sent to the
   * unconfirmed page, unless the request is for the auth blueprint or for a
   * static file. `blueprint` and `endpoint` are None when the request matched
   * no blueprint or no endpoint.
   */
  predicate GateRedirects(users: map<UserId, Account>, v: Viewer, blueprint: Option<string>, endpoint: Option<string>)
    requires Known(users, v)
  {
    v.SignedIn? && !users[v.id].confirmed && blueprint != Some("auth") && endpoint != Some("static")
  }

  /** Anonymous visitors and confirmed users are never redirected, whatever they ask for. */
  lemma GateSparesAnonymousAndConfirmed(
    users: map<UserId, Account>, v: Viewer, blueprint: Option<string>, endpoint: Option<string>)
    requires Known(users, v)
    requires v.Visitor? || users[v.id].confirmed
    ensures !GateRedirects(users, v, blueprint, endpoint)
  {
  }

  /** The gate always lets auth pages and static files through. */
  lemma GateSparesAuthAndStatic(users: map<UserId, Account>, v: Viewer, endpoint: Option<string>, blueprint: Option<string>)
    requires Known(users, v)
    ensures !GateRedirects(users, v, Some("auth"), endpoint)
    ensures !GateRedirects(users, v, blueprint, Some("static"))
  {
  }

  /**
   * `before_request`: every request from a signed-in user first records the
   * visit (`ping`), then the gate decides.
   */
  method BeforeRequest(db: Db, v: Viewer, blueprint: Option<string>, endpoint: Option<string>, now: nat)
    returns (o: Outcome)
    requires db.Valid() && Known(db.users, v)
    modifies db
    ensures db.Valid()
    ensures db.edges == old(db.edges) && db.posts == old(db.posts) && db.comments == old(db.comments)
    ensures v.SignedIn? ==> db.users == old(db.users)[v.id := old(db.users)[v.id].(lastSeen := now)]
    ensures v.Visitor? ==> db.users == old(db.users)
    ensures o == (if GateRedirects(old(db.users), v, blueprint, endpoint) then RedirectUnconfirmed else Proceed)
  {
    if v.SignedIn? {
      db.SetAccount(v.id, db.users[v.id].(lastSeen := now));
      if !db.users[v.id].confirmed && blueprint != Some("auth") && endpoint != Some("static") {
        return RedirectUnconfirmed;
      }
    }
    o := Proceed;
  }

  // ---- unconfirmed

  /** `unconfirmed`: the page is shown only to a signed-in, unconfirmed user; everyone else goes home. */
  function Unconfirmed(users: map<UserId, Account>, v: Viewer): (o: Outcome)
    requires Known(users, v)
    ensures o == UnconfirmedPage || o == RedirectHome
  {
    if v.Visitor? || users[v.id].confirmed then RedirectHome else UnconfirmedPage
  }

  /**
   * The gate and the page agree: whoever the gate redirects is shown the
   * unconfirmed page (it lives in the auth blueprint, so the gate lets the
   * follow-up request through), and nobody else is.
   */
  lemma GateLeadsToUnconfirmedPage(
    users: map<UserId, Account>, v: Viewer, blueprint: Option<string>, endpoint: Option<string>)
    requires Known(users, v)
    ensures GateRedirects(users, v, blueprint, endpoint) ==>
      Unconfirmed(users, v) == UnconfirmedPage && !GateRedirects(users, v, Some("auth"), Some("auth.unconfirmed"))
    ensures Unconfirmed(users, v) == UnconfirmedPage <==>
      GateRedirects(users, v, None, None)
  {
  }

  /**
   * `resend_confirmation`: a new confirmation token goes to the signed-in
   * user's own address, unless the account is already confirmed.
   */
  function ResendConfirmation(users: map<UserId, Account>, v: Viewer): (o: Outcome)
    requires Known(users, v)
    ensures v.Visitor? ==> o == LoginRequired
    ensures o.ConfirmationMailed? <==> v.SignedIn? && !users[v.id].confirmed
    ensures o.ConfirmationMailed? ==> o.to == users[v.id].email
  {
    if v.Visitor? then LoginRequired
    else if users[v.id].confirmed then RedirectHome
    else ConfirmationMailed(users[v.id].email)
  }

  /** A new confirmation mail is offered to exactly the users shown the unconfirmed page. */
  lemma ResendMatchesUnconfirmedPage(users: map<UserId, Account>, v: Viewer)
    requires Known(users, v)
    ensures ResendConfirmation(users, v).ConfirmationMailed? <==> Unconfirmed(users, v) == UnconfirmedPage
  {
  }

  // ---- register

  /**
   * The account `register` creates from a valid form: the email lowercased,
   * the password hashed under `salt`, unconfirmed, and the role the model
   * layer gives that address (`adminEmail` is the configured administrator
   * address, if any).
   */
  function RegisteredAccount(f: RegisterInput, salt: nat, adminEmail: Option<string>, now: nat): Account {
    NewAccount(Lower(f.email), f.username, HashPassword(f.password, salt), InitialRole(Lower(f.email), adminEmail), now)
  }

  /**
   * `register`: a valid form stores the new account with its self-edge;
   * anything else changes nothing.
   */
  method Register(
    db: Db, submission: Option<RegisterInput>, isEmail: string -> bool, salt: nat, adminEmail: Option<string>, now: nat)
    returns (o: Outcome)
    requires db.Valid()
    modifies db
    ensures db.Valid()
    ensures db.posts == old(db.posts) && db.comments == old(db.comments)
    ensures submission.Some? && RegisterValid(old(db.users), submission.value, isEmail) ==>
      && o.AccountCreated? && o.id !in old(db.users)
      && db.users == old(db.users)[o.id := RegisteredAccount(submission.value, salt, adminEmail, now)]
      && db.edges == old(db.edges) + {(o.id, o.id)}
    ensures !(submission.Some? && RegisterValid(old(db.users), submission.value, isEmail)) ==>
      o == ShowForm && db.users == old(db.users) && db.edges == old(db.edges)
  {
    if submission.Some? && RegisterValid(db.users, submission.value, isEmail) {
      var id := db.AddUser(RegisteredAccount(submission.value, salt, adminEmail, now));
      return AccountCreated(id);
    }
    o := ShowForm;
  }

  /**
   * The registered account holds a lowercase email, is unconfirmed, verifies
   * exactly the chosen password, and has the default role unless its address
   * is the configured administrator's.
   */
  lemma RegisteredAccountShape(f: RegisterInput, salt: nat, adminEmail: Option<string>, now: nat, attempt: string)
    ensures var acc := RegisteredAccount(f, salt, adminEmail, now);
      && (forall i :: 0 <= i < |acc.email| ==> !IsAsciiUpper(acc.email[i]))
      && Lower(acc.email) == acc.email
      && !acc.confirmed
      && (VerifyPassword(acc.password, attempt) <==> attempt == f.password)
      && (acc.role == Administrator <==> adminEmail == Some(acc.email))
      && (adminEmail == None ==> acc.role == DefaultRole)
  {
    LowerIdempotent(f.email);
  }

  // ---- login

  /** `login` as written: the account is looked up by the address exactly as typed. */
  ghost predicate LoginAcceptsAsWritten(users: map<UserId, Account>, f: LoginInput) {
    EmailTaken(users, f.email) && VerifyPassword(users[UserWithEmail(users, f.email)].password, f.password)
  }

  /** `login` as intended: the address is lowered first, as registration stored it. */
  ghost predicate LoginAccepts(users: map<UserId, Account>, f: LoginInput) {
    EmailTaken(users, Lower(f.email))
    && VerifyPassword(users[UserWithEmail(users, Lower(f.email))].password, f.password)
  }

  /**
   * As written, a user who registered as "Ann@x.io" (stored as "ann@x.io")
   * cannot sign in by typing the same address again; lowering first lets them.
   */
  lemma LoginAsWrittenRejectsRegisteredCase()
    ensures var users := map[0 := NewAccount(Lower("Ann@x.io"), "ann", HashPassword("password", 7), DefaultRole, 0)];
      && !LoginAcceptsAsWritten(users, LoginInput("Ann@x.io", "password", false))
      && LoginAccepts(users, LoginInput("Ann@x.io", "password", false))
  {
    var users := map[0 := NewAccount(Lower("Ann@x.io"), "ann", HashPassword("password", 7), DefaultRole, 0)];
    assert Lower("Ann@x.io")[0] == 'a' != 'A';
    assert Lower("Ann@x.io") == "ann@x.io";
    assert users[0].email == Lower("Ann@x.io");
  }

  /**
   * `login` (with the address lowered): sign-in succeeds exactly when the form
   * is valid, an account holds the address, and the password verifies against
   * it; nothing in the store changes.
   */
  method Login(db: Db, submission: Option<LoginInput>, isEmail: string -> bool) returns (o: Outcome)
    requires db.Valid()
    ensures submission.Some? && LoginValid(submission.value, isEmail) ==>
      if LoginAccepts(db.users, submission.value)
      then o == SignedInAs(UserWithEmail(db.users, Lower(submission.value.email)))
      else o == InvalidCredentials
    ensures !(submission.Some? && LoginValid(submission.value, isEmail)) ==> o == ShowForm
    ensures o.SignedInAs? ==>
      o.id in db.users && VerifyPassword(db.users[o.id].password, submission.value.password)
  {
    if submission.Some? && LoginValid(submission.value, isEmail) {
      var f := submission.value;
      var found := db.FindByEmail(Lower(f.email));
      if found.Some? && VerifyPassword(db.users[found.value].password, f.password) {
        return SignedInAs(found.value);
      }
      return InvalidCredentials;
    }
    o := ShowForm;
  }

  // ---- confirm

  /**
   * `confirm`: an already-confirmed user is sent home with nothing checked or
   * changed; otherwise a confirmation token for this very user confirms it.
   */
  method Confirm(db: Db, v: Viewer, decoded: Option<Claims>) returns (o: Outcome)
    requires db.Valid() && Known(db.users, v)
    modifies db
    ensures db.Valid()
    ensures db.edges == old(db.edges) && db.posts == old(db.posts) && db.comments == old(db.comments)
    ensures v.Visitor? ==> o == LoginRequired
    ensures v.SignedIn? && old(db.users)[v.id].confirmed ==> o == AlreadyConfirmed
    ensures v.SignedIn? && !old(db.users)[v.id].confirmed ==>
      o == (if ConfirmAccepts(v.id, decoded) then AccountConfirmed else TokenRejected)
    ensures o == AccountConfirmed ==> db.users == old(db.users)[v.id := old(db.users)[v.id].(confirmed := true)]
    ensures o != AccountConfirmed ==> db.users == old(db.users)
  {
    if v.Visitor? {
      return LoginRequired;
    }
    if db.users[v.id].confirmed {
      return AlreadyConfirmed;
    }
    if ConfirmAccepts(v.id, decoded) {
      db.SetAccount(v.id, db.users[v.id].(confirmed := true));
      return AccountConfirmed;
    }
    o := TokenRejected;
  }

  // ---- update_password

  /** `update_password`: the new password is set only when the old one verifies. */
  method UpdatePassword(db: Db, v: Viewer, submission: Option<UpdatePasswordInput>, salt: nat) returns (o: Outcome)
    requires db.Valid() && Known(db.users, v)
    modifies db
    ensures db.Valid()
    ensures db.edges == old(db.edges) && db.posts == old(db.posts) && db.comments == old(db.comments)
    ensures v.Visitor? ==> o == LoginRequired
    ensures v.SignedIn? ==>
      if submission.Some? && UpdatePasswordValid(submission.value) then
        o == (if VerifyPassword(old(db.users)[v.id].password, submission.value.oldPassword)
              then PasswordUpdated else WrongPassword)
      else o == ShowForm
    ensures o == PasswordUpdated ==>
      db.users == old(db.users)[v.id := old(db.users)[v.id].(password := HashPassword(submission.value.newPassword, salt))]
    ensures o != PasswordUpdated ==> db.users == old(db.users)
  {
    if v.Visitor? {
      return LoginRequired;
    }
    if submission.Some? && UpdatePasswordValid(submission.value) {
      var f := submission.value;
      if VerifyPassword(db.users[v.id].password, f.oldPassword) {
        db.SetAccount(v.id, db.users[v.id].(password := HashPassword(f.newPassword, salt)));
        return PasswordUpdated;
      }
      return WrongPassword;
    }
    o := ShowForm;
  }

  // ---- reset_password_request and reset_password

  /** `reset_password_request`: a reset token is mailed to the account holding the lowered address, if any. */
  method ResetPasswordRequest(db: Db, submission: Option<ResetRequestInput>, isEmail: string -> bool)
    returns (o: Outcome)
    requires db.Valid()
    ensures submission.Some? && ResetRequestValid(submission.value, isEmail) ==>
      if EmailTaken(db.users, Lower(submission.value.email))
      then o == ResetMailSent(UserWithEmail(db.users, Lower(submission.value.email)))
      else o == InvalidEmail
    ensures !(submission.Some? && ResetRequestValid(submission.value, isEmail)) ==> o == ShowForm
  {
    if submission.Some? && ResetRequestValid(submission.value, isEmail) {
      var found := db.FindByEmail(Lower(submission.value.email));
      if found.Some? {
        return ResetMailSent(found.value);
      }
      return InvalidEmail;
    }
    o := ShowForm;
  }

  /**
   * `reset_password`: refused outright for a signed-in user; otherwise a valid
   * reset token sets its account's password, and any other token changes nothing.
   */
  method ResetPassword(db: Db, v: Viewer, decoded: Option<Claims>, submission: Option<ResetInput>, salt: nat)
    returns (o: Outcome)
    requires db.Valid() && Known(db.users, v)
    modifies db
    ensures db.Valid()
    ensures db.edges == old(db.edges) && db.posts == old(db.posts) && db.comments == old(db.comments)
    ensures v.SignedIn? ==> o == RedirectHome
    ensures v.Visitor? ==>
      if submission.Some? && ResetValid(submission.value) then
        o == (if ResetTarget(old(db.users), decoded).Some? then PasswordReset else TokenRejected)
      else o == ShowForm
    ensures o == PasswordReset ==>
      var id := ResetTarget(old(db.users), decoded).value;
      db.users == old(db.users)[id := old(db.users)[id].(password := HashPassword(submission.value.password1, salt))]
    ensures o != PasswordReset ==> db.users == old(db.users)
  {
    if v.SignedIn? {
      return RedirectHome;
    }
    if submission.Some? && ResetValid(submission.value) {
      var target := ResetTarget(db.users, decoded);
      if target.Some? {
        var id := target.value;
        db.SetAccount(id, db.users[id].(password := HashPassword(submission.value.password1, salt)));
        return PasswordReset;
      }
      return TokenRejected;
    }
    o := ShowForm;
  }

  // ---- update_email and update_email_token

  /**
   * `update_email`: when the password verifies, an email-change token for the
   * lowered address is mailed to that address (which is also kept in the
   * session); nothing in the store changes yet.
   */
  method UpdateEmailRequest(db: Db, v: Viewer, submission: Option<UpdateEmailInput>, isEmail: string -> bool)
    returns (o: Outcome)
    requires db.Valid() && Known(db.users, v)
    ensures v.Visitor? ==> o == LoginRequired
    ensures v.SignedIn? ==>
      if submission.Some? && UpdateEmailValid(db.users, submission.value, isEmail) then
        o == (if VerifyPassword(db.users[v.id].password, submission.value.password)
              then EmailChangeMailed(Lower(submission.value.email)) else WrongPassword)
      else o == ShowForm
  {
    if v.Visitor? {
      return LoginRequired;
    }
    if submission.Some? && UpdateEmailValid(db.users, submission.value, isEmail) {
      var f := submission.value;
      if VerifyPassword(db.users[v.id].password, f.password) {
        return EmailChangeMailed(Lower(f.email));
      }
      return WrongPassword;
    }
    o := ShowForm;
  }

  /**
   * `update_email_token`: an email-change token for the signed-in user moves
   * the account to the token's address, unless some account already holds it.
   */
  method UpdateEmailToken(db: Db, v: Viewer, decoded: Option<Claims>) returns (o: Outcome)
    requires db.Valid() && Known(db.users, v)
    modifies db
    ensures db.Valid()
    ensures db.edges == old(db.edges) && db.posts == old(db.posts) && db.comments == old(db.comments)
    ensures v.Visitor? ==> o == LoginRequired
    ensures v.SignedIn? ==> o == (if NewEmailFor(old(db.users), v.id, decoded).Some? then EmailUpdated else TokenRejected)
    ensures o == EmailUpdated ==>
      db.users == old(db.users)[v.id := old(db.users)[v.id].(email := NewEmailFor(old(db.users), v.id, decoded).value)]
    ensures o != EmailUpdated ==> db.users == old(db.users)
  {
    if v.Visitor? {
      return LoginRequired;
    }
    var newEmail := NewEmailFor(db.users, v.id, decoded);
    if newEmail.Some? {
      db.SetAccount(v.id, db.users[v.id].(email := newEmail.value));
      return EmailUpdated;
    }
    o := TokenRejected;
  }

  /**
   * The two steps together: a variant of a stored address that differs from
   * it only in case, and that no account holds as typed, passes the form; but
   * the request lowers it, so the token it mails names a stored address and
   * is refused.
   */
  lemma MixedCaseEmailChangeRefusedAtToken(
    users: map<UserId, Account>, uid: UserId, typed: string, password: string, isEmail: string -> bool)
    requires uid in users && EmailTaken(users, Lower(typed)) && !EmailTaken(users, typed)
    requires DataRequired(typed) && LengthOk(typed, 1, 64) && isEmail(typed) && DataRequired(password)
    ensures UpdateEmailValid(users, UpdateEmailInput(typed, password), isEmail)
    ensures NewEmailFor(users, uid, Issued(ChangeEmail, uid, Some(Lower(typed)))) == None
  {
  }

  // ---- update_username

  /** `update_username`: the new username is set only when the password verifies. */
  method UpdateUsername(db: Db, v: Viewer, submission: Option<UpdateUsernameInput>) returns (o: Outcome)
    requires db.Valid() && Known(db.users, v)
    modifies db
    ensures db.Valid()
    ensures db.edges == old(db.edges) && db.posts == old(db.posts) && db.comments == old(db.comments)
    ensures v.Visitor? ==> o == LoginRequired
    ensures v.SignedIn? ==>
      if submission.Some? && UpdateUsernameValid(old(db.users), submission.value) then
        o == (if VerifyPassword(old(db.users)[v.id].password, submission.value.password)
              then UsernameUpdated else WrongPassword)
      else o == ShowForm
    ensures o == UsernameUpdated ==>
      db.users == old(db.users)[v.id := old(db.users)[v.id].(username := submission.value.username)]
    ensures o != UsernameUpdated ==> db.users == old(db.users)
  {
    if v.Visitor? {
      return LoginRequired;
    }
    if submission.Some? && UpdateUsernameValid(db.users, submission.value) {
      var f := submission.value;
      if VerifyPassword(db.users[v.id].password, f.password) {
        db.SetAccount(v.id, db.users[v.id].(username := f.username));
        return UsernameUpdated;
      }
      return WrongPassword;
    }
    o := ShowForm;
  }
}
