/**
 * The account forms of the auth blueprint: which submissions they accept.
 * A form is accepted when every validator of every field passes; the inline
 * `validate_email` / `validate_username` checks run against the stored users.
 * The `Email()` syntax check belongs to an external library and is supplied
 * by the caller as `isEmail`.
 */
module AuthForms {
  import opened Validators
  import opened Permissions
  import opened Accounts

  /** `^[a-zA-Z][a-zA-Z0-9_.]*$`, the registration username pattern. */
  const RegisterUsernameRegex: Pattern := HeadStar("a-zA-Z", "a-zA-Z0-9_.")

  /** `^[a-zA-Z][a-zA_Z0-9_.]*$`, the update-username pattern as written. */
  const UpdateUsernameRegexAsWritten: Pattern := HeadStar("a-zA-Z", "a-zA_Z0-9_.")

  /** The update-username pattern as intended: the registration pattern. */
  const UpdateUsernameRegex: Pattern := RegisterUsernameRegex

  /** A character allowed after the first in a registered username. */
  predicate UsernameChar(c: char) {
    IsAsciiLetter(c) || IsAsciiDigit(c) || c == '_' || c == '.'
  }

  /** A character the as-written update pattern allows after the first. */
  predicate UpdateUsernameCharAsWritten(c: char) {
    'a' <= c <= 'z' || c == 'A' || c == 'Z' || IsAsciiDigit(c) || c == '_' || c == '.'
  }

  /** `[a-zA-Z0-9_.]` holds exactly the username characters. */
  lemma UsernameClass(c: char)
    ensures InClass(ParseClass("a-zA-Z0-9_."), c) <==> UsernameChar(c)
  {
    var body := "a-zA-Z0-9_.";
    assert body[3..] == "A-Z0-9_.";
    assert body[3..][3..] == "0-9_.";
    assert body[3..][3..][3..] == "_.";
    assert body[3..][3..][3..][1..] == ".";
    assert body[3..][3..][3..][1..][1..] == [];
    assert ParseClass(body) == [Span('a', 'z'), Span('A', 'Z'), Span('0', '9'), Single('_'), Single('.')];
    InClassCons(Single('.'), [], c);
    InClassCons(Single('_'), [Single('.')], c);
    InClassCons(Span('0', '9'), [Single('_'), Single('.')], c);
    InClassCons(Span('A', 'Z'), [Span('0', '9'), Single('_'), Single('.')], c);
    InClassCons(Span('a', 'z'), [Span('A', 'Z'), Span('0', '9'), Single('_'), Single('.')], c);
  }

  /**
   * `[a-zA_Z0-9_.]` is not the letters: `A_Z` is three single characters, so
   * of the capitals only `A` and `Z` are in it.
   */
  lemma UpdateUsernameClassAsWritten(c: char)
    ensures InClass(ParseClass("a-zA_Z0-9_."), c) <==> UpdateUsernameCharAsWritten(c)
  {
    var body := "a-zA_Z0-9_.";
    assert body[3..] == "A_Z0-9_.";
    assert body[3..][1..] == "_Z0-9_.";
    assert body[3..][1..][1..] == "Z0-9_.";
    assert body[3..][1..][1..][1..] == "0-9_.";
    assert body[3..][1..][1..][1..][3..] == "_.";
    assert body[3..][1..][1..][1..][3..][1..] == ".";
    assert body[3..][1..][1..][1..][3..][1..][1..] == [];
    assert ParseClass(body)
      == [Span('a', 'z'), Single('A'), Single('_'), Single('Z'), Span('0', '9'), Single('_'), Single('.')];
    InClassCons(Single('.'), [], c);
    InClassCons(Single('_'), [Single('.')], c);
    InClassCons(Span('0', '9'), [Single('_'), Single('.')], c);
    InClassCons(Single('Z'), [Span('0', '9'), Single('_'), Single('.')], c);
    InClassCons(Single('_'), [Single('Z'), Span('0', '9'), Single('_'), Single('.')], c);
    InClassCons(Single('A'), [Single('_'), Single('Z'), Span('0', '9'), Single('_'), Single('.')], c);
    InClassCons(Span('a', 'z'), [Single('A'), Single('_'), Single('Z'), Span('0', '9'), Single('_'), Single('.')], c);
  }

  /** The registration pattern: a letter, then letters, digits, `_` and `.` only. */
  lemma RegisterUsernameRegexMeaning(s: string)
    ensures FullMatch(RegisterUsernameRegex, s) <==>
      |s| >= 1 && IsAsciiLetter(s[0]) && forall i :: 1 <= i < |s| ==> UsernameChar(s[i])
  {
    forall c ensures InClass(ParseClass("a-zA-Z"), c) <==> IsAsciiLetter(c) { LetterClass(c); }
    forall c ensures InClass(ParseClass("a-zA-Z0-9_."), c) <==> UsernameChar(c) { UsernameClass(c); }
    FullMatchMeaning(RegisterUsernameRegex, s, IsAsciiLetter, UsernameChar);
  }

  /** The update pattern as written: after the first letter, no capital other than `A` or `Z`. */
  lemma UpdateUsernameRegexAsWrittenMeaning(s: string)
    ensures FullMatch(UpdateUsernameRegexAsWritten, s) <==>
      |s| >= 1 && IsAsciiLetter(s[0]) && forall i :: 1 <= i < |s| ==> UpdateUsernameCharAsWritten(s[i])
  {
    forall c ensures InClass(ParseClass("a-zA-Z"), c) <==> IsAsciiLetter(c) { LetterClass(c); }
    forall c ensures InClass(ParseClass("a-zA_Z0-9_."), c) <==> UpdateUsernameCharAsWritten(c) {
      UpdateUsernameClassAsWritten(c);
    }
    FullMatchMeaning(UpdateUsernameRegexAsWritten, s, IsAsciiLetter, UpdateUsernameCharAsWritten);
  }

  /** A letter is never whitespace, so a username matching a pattern is never blank. */
  lemma LetterIsData(s: string)
    requires |s| >= 1 && IsAsciiLetter(s[0])
    ensures DataRequired(s)
  {
    assert !IsSpace(s[0]);
  }

  // ---- field rules shared by several forms

  /** An email field of the register, login and reset-request forms: required, an email, 1..64 long. */
  predicate EmailField(email: string, isEmail: string -> bool) {
    DataRequired(email) && isEmail(email) && LengthOk(email, 1, 64)
  }

  /** A new password with its confirmation: required, 8..20 long, equal to the confirmation. */
  predicate NewPasswordFields(password: string, confirmation: string) {
    DataRequired(password) && LengthOk(password, 8, 20) && EqualTo(password, confirmation)
    && DataRequired(confirmation)
  }

  /** A new-password pair is accepted exactly when the password is 8..20 long, not blank, and confirmed. */
  lemma NewPasswordRule(password: string, confirmation: string)
    ensures NewPasswordFields(password, confirmation) <==>
      8 <= |password| <= 20 && password == confirmation && DataRequired(password)
  {
  }

  // ---- RegisterForm

  datatype RegisterInput = RegisterInput(email: string, username: string, password: string, confirmPassword: string)

  /** The email is well formed and its lowercase form is not stored. */
  predicate RegisterEmailOk(users: map<UserId, Account>, email: string, isEmail: string -> bool) {
    EmailField(email, isEmail) && !EmailTaken(users, Lower(email))
  }

  /** The username is 3..20 long, matches the pattern, and is not stored (exact match). */
  predicate RegisterUsernameOk(users: map<UserId, Account>, name: string) {
    DataRequired(name) && LengthOk(name, 3, 20) && FullMatch(RegisterUsernameRegex, name)
    && !UsernameTaken(users, name)
  }

  predicate RegisterValid(users: map<UserId, Account>, f: RegisterInput, isEmail: string -> bool) {
    && RegisterEmailOk(users, f.email, isEmail)
    && RegisterUsernameOk(users, f.username)
    && NewPasswordFields(f.password, f.confirmPassword)
  }

  /**
   * A registration username is accepted exactly when it is 3..20 characters,
   * starts with an ASCII letter, continues with letters, digits, `_` or `.`,
   * and no stored username is identical to it (case matters).
   */
  lemma RegisterUsernameRule(users: map<UserId, Account>, name: string)
    ensures RegisterUsernameOk(users, name) <==>
      && 3 <= |name| <= 20
      && IsAsciiLetter(name[0])
      && (forall i :: 1 <= i < |name| ==> UsernameChar(name[i]))
      && !UsernameTaken(users, name)
  {
    RegisterUsernameRegexMeaning(name);
    if 3 <= |name| && IsAsciiLetter(name[0]) {
      LetterIsData(name);
    }
  }

  /** Registration refuses any email whose lowercase form is already stored, whatever its case. */
  lemma RegisterRejectsStoredEmail(users: map<UserId, Account>, f: RegisterInput, isEmail: string -> bool)
    requires EmailTaken(users, Lower(f.email))
    ensures !RegisterValid(users, f, isEmail)
  {
  }

  /** An accepted registration has an email of 1..64 characters and a password of 8..20. */
  lemma RegisterBounds(users: map<UserId, Account>, f: RegisterInput, isEmail: string -> bool)
    requires RegisterValid(users, f, isEmail)
    ensures 1 <= |f.email| <= 64 && 3 <= |f.username| <= 20 && 8 <= |f.password| <= 20
    ensures f.password == f.confirmPassword
  {
  }

  // ---- LoginForm

  datatype LoginInput = LoginInput(email: string, password: string, rememberMe: bool)

  predicate LoginValid(f: LoginInput, isEmail: string -> bool) {
    EmailField(f.email, isEmail) && DataRequired(f.password)
  }

  // ---- UpdatePasswordForm

  datatype UpdatePasswordInput = UpdatePasswordInput(oldPassword: string, newPassword: string, newPassword2: string)

  predicate UpdatePasswordValid(f: UpdatePasswordInput) {
    DataRequired(f.oldPassword) && LengthOk(f.oldPassword, 8, 20)
    && NewPasswordFields(f.newPassword, f.newPassword2)
  }

  // ---- PasswordResetRequestForm and PasswordResetForm

  datatype ResetRequestInput = ResetRequestInput(email: string)

  predicate ResetRequestValid(f: ResetRequestInput, isEmail: string -> bool) {
    EmailField(f.email, isEmail)
  }

  datatype ResetInput = ResetInput(password1: string, password2: string)

  predicate ResetValid(f: ResetInput) {
    NewPasswordFields(f.password1, f.password2)
  }

  // ---- UpdateEmailForm

  datatype UpdateEmailInput = UpdateEmailInput(email: string, password: string)

  /** The duplicate check compares the address as typed, without lowering it. */
  predicate UpdateEmailValid(users: map<UserId, Account>, f: UpdateEmailInput, isEmail: string -> bool) {
    DataRequired(f.email) && LengthOk(f.email, 1, 64) && isEmail(f.email)
    && !EmailTaken(users, f.email)
    && DataRequired(f.password)
  }

  /**
   * Because the duplicate check does not lower the address, an upper-case
   * variant of a stored (lowercase) email passes the form.
   */
  lemma UpdateEmailIgnoresCase(isEmail: string -> bool)
    requires isEmail("A@b.co")
    ensures UpdateEmailValid(
      map[0 := NewAccount("a@b.co", "ann", HashPassword("password", 0), DefaultRole, 0)],
      UpdateEmailInput("A@b.co", "password"), isEmail)
  {
    var users := map[0 := NewAccount("a@b.co", "ann", HashPassword("password", 0), DefaultRole, 0)];
    assert "A@b.co"[0] != "a@b.co"[0];
    assert !IsSpace("A@b.co"[0]) && !IsSpace("password"[0]);
  }

  // ---- UpdateUsernameForm

  datatype UpdateUsernameInput = UpdateUsernameInput(username: string, password: string)

  /** The form as written, with the `[a-zA_Z0-9_.]` class. */
  predicate UpdateUsernameValidAsWritten(users: map<UserId, Account>, f: UpdateUsernameInput) {
    DataRequired(f.username) && LengthOk(f.username, 3, 20)
    && FullMatch(UpdateUsernameRegexAsWritten, f.username)
    && !UsernameTaken(users, f.username)
    && DataRequired(f.password)
  }

  /** The form as intended: the same username rule as registration. */
  predicate UpdateUsernameValid(users: map<UserId, Account>, f: UpdateUsernameInput) {
    RegisterUsernameOk(users, f.username) && DataRequired(f.password)
  }

  /**
   * The as-written update form turns away a free username that registration
   * accepts: "abB" has a capital `B` after its first letter (and the pattern
   * alone rejects "aB").
   */
  lemma UpdateUsernameAsWrittenRejectsCapitals(users: map<UserId, Account>)
    requires !UsernameTaken(users, "abB")
    ensures UpdateUsernameValid(users, UpdateUsernameInput("abB", "password"))
    ensures !UpdateUsernameValidAsWritten(users, UpdateUsernameInput("abB", "password"))
    ensures !FullMatch(UpdateUsernameRegexAsWritten, "aB")
  {
    RegisterUsernameRule(users, "abB");
    UpdateUsernameRegexAsWrittenMeaning("abB");
    UpdateUsernameRegexAsWrittenMeaning("aB");
    assert !UpdateUsernameCharAsWritten("abB"[2]);
    assert !UpdateUsernameCharAsWritten("aB"[1]);
    assert !IsSpace("password"[0]);
  }

  /**
   * The intended update rule: exactly the registration rule for the username,
   * plus a non-blank password.
   */
  lemma UpdateUsernameRule(users: map<UserId, Account>, f: UpdateUsernameInput)
    ensures UpdateUsernameValid(users, f) <==>
      && 3 <= |f.username| <= 20
      && IsAsciiLetter(f.username[0])
      && (forall i :: 1 <= i < |f.username| ==> UsernameChar(f.username[i]))
      && !UsernameTaken(users, f.username)
      && DataRequired(f.password)
  {
    RegisterUsernameRule(users, f.username);
  }
}
