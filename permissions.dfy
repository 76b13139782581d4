/**
 * Roles and the five capabilities they grant. The source keeps each role's
 * capabilities as a bitmask and tests a capability by masking; the bit values
 * are not part of this model, so a role grants a set of named capabilities.
 */
module Permissions {

  datatype Permission = Follow | Comment | Write | Moderate | Admin

  /** The three seeded roles; `User` is the one flagged as default for new accounts. */
  datatype Role = User | Moderator | Administrator

  const DefaultRole: Role := User

  /** The capabilities each role holds. */
  function Grants(r: Role): set<Permission> {
    match r
    case User => {Follow, Comment, Write}
    case Moderator => {Follow, Comment, Write, Moderate}
    case Administrator => {Follow, Comment, Write, Moderate, Admin}
  }

  /** Who is asking: the anonymous visitor, or a registered user with a role. */
  datatype Principal = Anonymous | Registered(role: Role)

  /** `can(permission)`: anonymous never can; a registered user can exactly what the role grants. */
  predicate Can(p: Principal, perm: Permission) {
    p.Registered? && perm in Grants(p.role)
  }

  /** The default role grants FOLLOW, COMMENT and WRITE, but neither MODERATE nor ADMIN. */
  lemma DefaultRoleMatrix()
    ensures Can(Registered(DefaultRole), Follow)
    ensures Can(Registered(DefaultRole), Comment)
    ensures Can(Registered(DefaultRole), Write)
    ensures !Can(Registered(DefaultRole), Moderate)
    ensures !Can(Registered(DefaultRole), Admin)
  {
  }

  /** A moderator can do what the default role can, and MODERATE, but not ADMIN. */
  lemma ModeratorMatrix()
    ensures forall perm :: Can(Registered(Moderator), perm) <==> perm != Admin
  {
  }

  /** An administrator can do everything. */
  lemma AdministratorMatrix()
    ensures forall perm :: Can(Registered(Administrator), perm)
  {
    forall perm ensures Can(Registered(Administrator), perm) {
      match perm
      case Follow =>
      case Comment =>
      case Write =>
      case Moderate =>
      case Admin =>
    }
  }

  /** An anonymous visitor can do nothing. */
  lemma AnonymousMatrix()
    ensures forall perm :: !Can(Anonymous, perm)
  {
  }

  /** The roles are nested: each grants everything the one below it grants. */
  lemma RolesNested()
    ensures Grants(User) < Grants(Moderator) < Grants(Administrator)
  {
    assert Moderate !in Grants(User);
    assert Admin !in Grants(Moderator);
  }
}
