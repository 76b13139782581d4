/**
 * The profile forms of the main blueprint: the user's own profile editor and
 * the administrator's editor, whose role menu lists every role ordered by name.
 */
module ProfileForms {
  import opened Validators
  import opened Permissions
  import opened Accounts

  // ---- EditProfileForm

  datatype ProfileInput = ProfileInput(name: string, location: string, aboutMe: string)

  predicate ProfileValid(f: ProfileInput) {
    LengthOk(f.name, 0, 64) && LengthOk(f.location, 0, 64)
  }

  // ---- the role menu

  /** A row of the roles table. */
  datatype RoleRow = RoleRow(id: nat, name: string, role: Role)

  /** Name order of the store: character by character, a proper prefix first. */
  predicate NameLeq(a: string, b: string) {
    |a| == 0 || (|b| > 0 && (a[0] < b[0] || (a[0] == b[0] && NameLeq(a[1..], b[1..]))))
  }

  /** Any two names are ordered one way or the other. */
  lemma {:induction false} NameLeqTotal(a: string, b: string)
    ensures NameLeq(a, b) || NameLeq(b, a)
  {
    if |a| > 0 && |b| > 0 && a[0] == b[0] {
      NameLeqTotal(a[1..], b[1..]);
    }
  }

  predicate SortedByName(rows: seq<RoleRow>) {
    forall i :: 0 < i < |rows| ==> NameLeq(rows[i - 1].name, rows[i].name)
  }

  /** Inserts one row into a name-ordered list, keeping it ordered. */
  function InsertByName(r: RoleRow, rows: seq<RoleRow>): (out: seq<RoleRow>)
    requires SortedByName(rows)
    ensures SortedByName(out)
    ensures multiset(out) == multiset(rows) + multiset{r}
    ensures rows == [] ==> out == [r]
    ensures rows != [] ==> out[0] == r || out[0] == rows[0]
  {
    if rows == [] then [r]
    else if NameLeq(r.name, rows[0].name) then [r] + rows
    else
      NameLeqTotal(r.name, rows[0].name);
      assert rows == [rows[0]] + rows[1..];
      [rows[0]] + InsertByName(r, rows[1..])
  }

  /**
   * `[(role.id, role.name) for role in Role.query.order_by(Role.name).all()]`:
   * every row of the roles table, each as often as it is stored, ordered by name.
   */
  function RoleChoices(rows: seq<RoleRow>): (choices: seq<RoleRow>)
    ensures SortedByName(choices)
    ensures multiset(choices) == multiset(rows)
  {
    if rows == [] then []
    else
      assert rows == [rows[0]] + rows[1..];
      InsertByName(rows[0], RoleChoices(rows[1..]))
  }

  /** Every stored role is on the menu, and only stored roles are. */
  lemma RoleChoicesCoverRoles(rows: seq<RoleRow>, r: RoleRow)
    ensures r in RoleChoices(rows) <==> r in rows
  {
    assert r in RoleChoices(rows) <==> r in multiset(RoleChoices(rows));
    assert r in rows <==> r in multiset(rows);
  }

  // ---- EditProfileAdminForm

  datatype AdminEditInput = AdminEditInput(
    name: string,
    username: string,
    email: string,
    roleId: nat,
    location: string,
    aboutMe: string,
    confirmed: bool)

  /** `^[a-zA-Z][a-zA-Z_.]*$`: the admin editor allows no digits. */
  const AdminUsernameRegex: Pattern := HeadStar("a-zA-Z", "a-zA-Z_.")

  predicate AdminUsernameChar(c: char) {
    IsAsciiLetter(c) || c == '_' || c == '.'
  }

  lemma AdminUsernameClass(c: char)
    ensures InClass(ParseClass("a-zA-Z_."), c) <==> AdminUsernameChar(c)
  {
    var body := "a-zA-Z_.";
    assert body[3..] == "A-Z_.";
    assert body[3..][3..] == "_.";
    assert body[3..][3..][1..] == ".";
    assert body[3..][3..][1..][1..] == [];
    assert ParseClass(body) == [Span('a', 'z'), Span('A', 'Z'), Single('_'), Single('.')];
    InClassCons(Single('.'), [], c);
    InClassCons(Single('_'), [Single('.')], c);
    InClassCons(Span('A', 'Z'), [Single('_'), Single('.')], c);
    InClassCons(Span('a', 'z'), [Span('A', 'Z'), Single('_'), Single('.')], c);
  }

  /** `validate_email`: the edited user's own address passes; any other stored one does not. */
  predicate AdminEmailOk(users: map<UserId, Account>, edited: Account, email: string, isEmail: string -> bool) {
    isEmail(email) && LengthOk(email, 0, 64) && !(email != edited.email && EmailTaken(users, email))
  }

  /** `validate_username`: the edited user's own name passes; any other stored one does not. */
  predicate AdminUsernameOk(users: map<UserId, Account>, edited: Account, name: string) {
    LengthOk(name, 0, 64) && FullMatch(AdminUsernameRegex, name)
    && !(name != edited.username && UsernameTaken(users, name))
  }

  /** The select field accepts only an id that is on the menu. */
  predicate AdminRoleOk(roles: seq<RoleRow>, roleId: nat) {
    exists k :: 0 <= k < |RoleChoices(roles)| && RoleChoices(roles)[k].id == roleId
  }

  predicate AdminEditValid(
    users: map<UserId, Account>, roles: seq<RoleRow>, edited: Account, f: AdminEditInput, isEmail: string -> bool)
  {
    && LengthOk(f.name, 0, 64)
    && AdminUsernameOk(users, edited, f.username)
    && AdminEmailOk(users, edited, f.email, isEmail)
    && AdminRoleOk(roles, f.roleId)
    && LengthOk(f.location, 0, 64)
  }

  /**
   * The admin email check: an address is accepted exactly when it is well
   * formed, at most 64 long, and either the edited user's current address or
   * held by nobody.
   */
  lemma AdminEmailRule(users: map<UserId, Account>, edited: Account, email: string, isEmail: string -> bool)
    ensures AdminEmailOk(users, edited, email, isEmail) <==>
      isEmail(email) && |email| <= 64 && (email == edited.email || !EmailTaken(users, email))
  {
  }

  /**
   * The admin username check: one ASCII letter, then letters, `_` or `.`, at
   * most 64 long, and either unchanged or held by nobody.
   */
  lemma AdminUsernameRule(users: map<UserId, Account>, edited: Account, name: string)
    ensures AdminUsernameOk(users, edited, name) <==>
      && 1 <= |name| <= 64
      && IsAsciiLetter(name[0])
      && (forall i :: 1 <= i < |name| ==> AdminUsernameChar(name[i]))
      && (name == edited.username || !UsernameTaken(users, name))
  {
    forall c ensures InClass(ParseClass("a-zA-Z"), c) <==> IsAsciiLetter(c) { LetterClass(c); }
    forall c ensures InClass(ParseClass("a-zA-Z_."), c) <==> AdminUsernameChar(c) { AdminUsernameClass(c); }
    FullMatchMeaning(AdminUsernameRegex, name, IsAsciiLetter, AdminUsernameChar);
  }

  /** A username the admin editor accepts contains no digit at all. */
  lemma AdminUsernameHasNoDigits(users: map<UserId, Account>, edited: Account, name: string)
    requires AdminUsernameOk(users, edited, name)
    ensures forall i :: 0 <= i < |name| ==> !IsAsciiDigit(name[i])
  {
    AdminUsernameRule(users, edited, name);
  }

  /** Submitting the edited user's current email and username unchanged never trips the duplicate checks. */
  lemma AdminAcceptsUnchanged(users: map<UserId, Account>, edited: Account, isEmail: string -> bool)
    requires isEmail(edited.email) && |edited.email| <= 64
    requires FullMatch(AdminUsernameRegex, edited.username) && |edited.username| <= 64
    ensures AdminEmailOk(users, edited, edited.email, isEmail)
    ensures AdminUsernameOk(users, edited, edited.username)
  {
  }

  /** Name and location are at most 64 characters in both profile editors. */
  lemma ProfileLengths(
    users: map<UserId, Account>, roles: seq<RoleRow>, edited: Account,
    f: ProfileInput, g: AdminEditInput, isEmail: string -> bool)
    ensures ProfileValid(f) <==> |f.name| <= 64 && |f.location| <= 64
    ensures AdminEditValid(users, roles, edited, g, isEmail) ==> |g.name| <= 64 && |g.location| <= 64
  {
  }
}
