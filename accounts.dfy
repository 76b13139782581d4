/**
 * The records behind the views: accounts, posts and comments, the symbolic
 * password hash, and the claims an action token carries once its signature
 * and expiry have been checked.
 */
module Accounts {
  import opened Wrappers
  import opened Permissions

  type UserId = nat
  type PostId = nat
  type CommentId = nat

  /**
   * A salted one-way password hash. It is kept symbolic: nothing reads the
   * password back out of it, and only VerifyPassword compares against it.
   * The salt is chosen by the caller (the source draws it at random).
   */
  datatype PasswordHash = Hashed(salt: nat, secret: string)

  /** Setting `user.password`: hash the plaintext under a fresh salt. */
  function HashPassword(plain: string, salt: nat): PasswordHash {
    Hashed(salt, plain)
  }

  /** `user.verify_password(attempt)`. */
  predicate VerifyPassword(h: PasswordHash, attempt: string) {
    h.secret == attempt
  }

  /** A hash verifies the password it was made from and no other. */
  lemma PasswordRoundTrip(plain: string, salt: nat, attempt: string)
    ensures VerifyPassword(HashPassword(plain, salt), attempt) <==> attempt == plain
  {
  }

  /** Two users who pick the same password under different salts store different hashes. */
  lemma SaltsSeparateHashes(plain: string, salt1: nat, salt2: nat)
    requires salt1 != salt2
    ensures HashPassword(plain, salt1) != HashPassword(plain, salt2)
  {
  }

  datatype Account = Account(
    email: string,
    username: string,
    password: PasswordHash,
    confirmed: bool,
    role: Role,
    name: string,
    location: string,
    aboutMe: string,
    lastSeen: nat)

  /** A freshly created account: unconfirmed, with the given role and an empty profile. */
  function NewAccount(email: string, username: string, password: PasswordHash, role: Role, now: nat): Account {
    Account(email, username, password, false, role, "", "", "", now)
  }

  /**
   * The role a new account starts with: Administrator for the address the
   * deployment names as its administrator (the `CHIRP_ADMIN` setting, which
   * may be unset), the default role for every other address.
   */
  function InitialRole(email: string, adminEmail: Option<string>): (r: Role)
    ensures Can(Registered(r), Admin) <==> adminEmail == Some(email)
    ensures forall perm :: Can(Registered(DefaultRole), perm) ==> Can(Registered(r), perm)
  {
    RolesNested();
    if adminEmail == Some(email) then Administrator else DefaultRole
  }

  /**
   * With no administrator address configured every new account gets the
   * default role; with one configured, exactly that address is promoted, and
   * an administrator can do everything the default role can.
   */
  lemma InitialRoleRule(email: string, adminEmail: Option<string>, perm: Permission)
    ensures adminEmail == None ==> InitialRole(email, adminEmail) == DefaultRole
    ensures Can(Registered(DefaultRole), perm) ==> Can(Registered(InitialRole(email, adminEmail)), perm)
    ensures Can(Registered(InitialRole(email, adminEmail)), Admin) <==> adminEmail == Some(email)
  {
    RolesNested();
  }

  /** `User.query.filter_by(email=e).first()` finds someone. */
  predicate EmailTaken(users: map<UserId, Account>, email: string) {
    exists id :: id in users && users[id].email == email
  }

  /** `User.query.filter_by(username=n).first()` finds someone. */
  predicate UsernameTaken(users: map<UserId, Account>, name: string) {
    exists id :: id in users && users[id].username == name
  }

  /** The account a username lookup finds (unique when usernames are). */
  ghost function UserNamed(users: map<UserId, Account>, name: string): (id: UserId)
    requires UsernameTaken(users, name)
    ensures id in users && users[id].username == name
  {
    var id :| id in users && users[id].username == name; id
  }

  /** The account an email lookup finds (unique when emails are). */
  ghost function UserWithEmail(users: map<UserId, Account>, email: string): (id: UserId)
    requires EmailTaken(users, email)
    ensures id in users && users[id].email == email
  {
    var id :| id in users && users[id].email == email; id
  }

  ghost predicate UniqueEmails(users: map<UserId, Account>) {
    forall a, b :: a in users && b in users && users[a].email == users[b].email ==> a == b
  }

  ghost predicate UniqueUsernames(users: map<UserId, Account>) {
    forall a, b :: a in users && b in users && users[a].username == users[b].username ==> a == b
  }

  ghost predicate Unique(users: map<UserId, Account>) {
    UniqueEmails(users) && UniqueUsernames(users)
  }

  /**
   * Rewriting one account keeps emails and usernames unique as long as each of
   * its new email and username is either its old one or held by nobody: the
   * rule the admin editor and the credential updates check before writing.
   */
  lemma UpdateKeepsUnique(users: map<UserId, Account>, id: UserId, acc: Account)
    requires Unique(users) && id in users
    requires acc.email == users[id].email || !EmailTaken(users, acc.email)
    requires acc.username == users[id].username || !UsernameTaken(users, acc.username)
    ensures Unique(users[id := acc])
  {
  }

  /** Adding an account whose email and username nobody holds keeps both unique. */
  lemma InsertKeepsUnique(users: map<UserId, Account>, id: UserId, acc: Account)
    requires Unique(users) && id !in users
    requires !EmailTaken(users, acc.email) && !UsernameTaken(users, acc.username)
    ensures Unique(users[id := acc])
  {
  }

  /** The visitor behind a request: anonymous, or the signed-in user `current_user` loads. */
  datatype Viewer = Visitor | SignedIn(id: UserId)

  /** A signed-in viewer's account exists (the session loader returns a stored user). */
  predicate Known(users: map<UserId, Account>, v: Viewer) {
    v.SignedIn? ==> v.id in users
  }

  function PrincipalOf(users: map<UserId, Account>, v: Viewer): Principal
    requires Known(users, v)
  {
    if v.SignedIn? then Registered(users[v.id].role) else Anonymous
  }

  /** `current_user.can(perm)`. */
  predicate ViewerCan(users: map<UserId, Account>, v: Viewer, perm: Permission)
    requires Known(users, v)
  {
    Can(PrincipalOf(users, v), perm)
  }

  /** What an action token is for; a token for one purpose is useless for another. */
  datatype Purpose = ConfirmAccount | ResetPassword | ChangeEmail

  /**
   * The payload of an action token whose signature verified and which has not
   * expired. A tampered or expired token decodes to None: telling the two
   * apart, and signing itself, belong to the token library outside this model.
   */
  datatype Claims = Claims(purpose: Purpose, subject: UserId, newEmail: Option<string>)

  /** `user.confirm(token)` succeeds. */
  predicate ConfirmAccepts(uid: UserId, decoded: Option<Claims>) {
    decoded.Some? && decoded.value.purpose == ConfirmAccount && decoded.value.subject == uid
  }

  /** `User.reset_password(token, new)`: the stored account the token resets, if any. */
  function ResetTarget(users: map<UserId, Account>, decoded: Option<Claims>): Option<UserId> {
    if decoded.Some? && decoded.value.purpose == ResetPassword && decoded.value.subject in users
    then Some(decoded.value.subject)
    else None
  }

  /**
   * `user.update_email(token)`: the address the account moves to, if the token
   * is an email-change token for this very account and nobody holds the address.
   */
  function NewEmailFor(users: map<UserId, Account>, uid: UserId, decoded: Option<Claims>): Option<string> {
    if decoded.Some? && decoded.value.purpose == ChangeEmail && decoded.value.subject == uid
       && decoded.value.newEmail.Some? && !EmailTaken(users, decoded.value.newEmail.value)
    then decoded.value.newEmail
    else None
  }

  /** The claims a freshly issued, unexpired token of each purpose carries. */
  function Issued(purpose: Purpose, subject: UserId, newEmail: Option<string>): Option<Claims> {
    Some(Claims(purpose, subject, newEmail))
  }

  /** A confirmation token confirms the account it was issued to and no other. */
  lemma ConfirmTokenBindsSubject(owner: UserId, uid: UserId)
    ensures ConfirmAccepts(uid, Issued(ConfirmAccount, owner, None)) <==> uid == owner
  {
  }

  /** A reset token resets the account it was issued to, as long as that account is stored, and no other. */
  lemma ResetTokenBindsSubject(users: map<UserId, Account>, owner: UserId)
    ensures ResetTarget(users, Issued(ResetPassword, owner, None)) == (if owner in users then Some(owner) else None)
  {
  }

  /**
   * An email-change token moves the account it was issued to, and no other,
   * to the token's address, provided nobody holds that address.
   */
  lemma ChangeEmailTokenRule(users: map<UserId, Account>, uid: UserId, owner: UserId, email: string)
    ensures NewEmailFor(users, uid, Issued(ChangeEmail, owner, Some(email)))
      == (if uid == owner && !EmailTaken(users, email) then Some(email) else None)
  {
  }

  /** A token of another purpose never confirms, and a tampered or expired one never does anything. */
  lemma TokensArePurposeScoped(users: map<UserId, Account>, uid: UserId, c: Claims)
    ensures c.purpose != ConfirmAccount ==> !ConfirmAccepts(uid, Some(c))
    ensures c.purpose != ResetPassword ==> ResetTarget(users, Some(c)) == None
    ensures c.purpose != ChangeEmail ==> NewEmailFor(users, uid, Some(c)) == None
    ensures !ConfirmAccepts(uid, None) && ResetTarget(users, None) == None && NewEmailFor(users, uid, None) == None
  {
  }

  /** An email-change token moves the account it names to an address nobody holds, and nowhere else. */
  lemma ChangeEmailGuard(users: map<UserId, Account>, uid: UserId, decoded: Option<Claims>)
    ensures NewEmailFor(users, uid, decoded).Some? ==>
      && decoded.Some? && decoded.value.subject == uid
      && decoded.value.newEmail == NewEmailFor(users, uid, decoded)
      && !EmailTaken(users, NewEmailFor(users, uid, decoded).value)
  {
  }

  datatype Post = Post(author: UserId, body: string)

  /** A comment; `disabled` hides it from readers while keeping its text. */
  datatype Comment = Comment(author: UserId, post: PostId, body: string, disabled: bool)
}
