/**
 * The follow and token scenarios of the User model's tests, replayed on the
 * model: the follow, reset and email-change scenarios on a fresh store
 * (the token ones through their handlers), the others on the token
 * functions with concrete accounts.
 */
module UserModelScenarios {
  import opened Wrappers
  import opened Permissions
  import opened Accounts
  import opened FollowGraph
  import opened Store
  import Validators
  import AuthForms
  import AuthViews

  /**
   * The edge sets `test_follows` passes through, for two distinct users `a`
   * and `b`: only the self-edges, then `a` following `b`, then `b` following
   * `a` as well just before `b` is deleted.
   */
  lemma {:induction false} FollowsScenarioGraphs(a: UserId, b: UserId)
    requires a != b
    ensures var start := {(a, a), (b, b)};
      && !IsFollowing(start, a, b) && !IsFollowedBy(start, a, b)
      && |Followed(start, a)| == 1 && |Followers(start, b)| == 1 && |start| == 2
    ensures var follows := {(a, a), (b, b)} + {(a, b)};
      && IsFollowing(follows, a, b) && !IsFollowedBy(follows, a, b) && IsFollowedBy(follows, b, a)
      && |Followed(follows, a)| == 2 && |Followers(follows, b)| == 2
      && follows - {(a, b)} == {(a, a), (b, b)}
    ensures WithoutUser({(a, a), (b, b)} + {(b, a)}, b) == {(a, a)}
  {
    var start := {(a, a), (b, b)};
    assert Followed(start, a) == {(a, a)};
    assert Followers(start, b) == {(b, b)};
    var follows := start + {(a, b)};
    assert Followed(follows, a) == {(a, a), (a, b)};
    assert Followers(follows, b) == {(b, b), (a, b)};
  }

  /** A fresh store holding the two accounts `test_follows` starts from, each with its self-edge. */
  method TwoUsers() returns (db: Db, u1: UserId, u2: UserId)
    ensures fresh(db) && db.Valid()
    ensures u1 != u2 && db.users.Keys == {u1, u2}
    ensures db.edges == {(u1, u1), (u2, u2)}
  {
    db := new Db();
    u1 := db.AddUser(NewAccount("john@example.com", "john", HashPassword("cat", 0), DefaultRole, 0));
    assert db.users == map[u1 := NewAccount("john@example.com", "john", HashPassword("cat", 0), DefaultRole, 0)];
    u2 := db.AddUser(NewAccount("susan@example.org", "susan", HashPassword("dog", 1), DefaultRole, 0));
  }

  /**
   * `test_follows`: two users, one follows the other, unfollows, is followed
   * back, and the follower is deleted. The counts include the self-edges.
   */
  method FollowsScenario()
    returns (followingBefore: bool, followedByBefore: bool,
             following: bool, followedBy: bool, reverse: bool,
             followedCount: nat, followersCount: nat,
             followedAfterUnfollow: nat, followersAfterUnfollow: nat, totalAfterUnfollow: nat,
             totalAfterDelete: nat)
    ensures !followingBefore && !followedByBefore
    ensures following && !followedBy && reverse
    ensures followedCount == 2 && followersCount == 2
    ensures followedAfterUnfollow == 1 && followersAfterUnfollow == 1 && totalAfterUnfollow == 2
    ensures totalAfterDelete == 1
  {
    var db, u1, u2 := TwoUsers();
    FollowsScenarioGraphs(u1, u2);
    followingBefore := IsFollowing(db.edges, u1, u2);
    followedByBefore := IsFollowedBy(db.edges, u1, u2);

    db.AddEdge(u1, u2);
    following := IsFollowing(db.edges, u1, u2);
    followedBy := IsFollowedBy(db.edges, u1, u2);
    reverse := IsFollowedBy(db.edges, u2, u1);
    followedCount := |Followed(db.edges, u1)|;
    followersCount := |Followers(db.edges, u2)|;

    db.RemoveEdge(u1, u2);
    followedAfterUnfollow := |Followed(db.edges, u1)|;
    followersAfterUnfollow := |Followers(db.edges, u2)|;
    totalAfterUnfollow := |db.edges|;

    db.AddEdge(u2, u1);
    db.DeleteUser(u2);
    totalAfterDelete := |db.edges|;
  }

  /** `test_valid_confirmation_token`, `test_invalid_confirmation_token`, `test_expired_confirmation_token`. */
  lemma ConfirmationScenarios()
    ensures ConfirmAccepts(0, Issued(ConfirmAccount, 0, None))
    ensures !ConfirmAccepts(1, Issued(ConfirmAccount, 0, None))
    ensures !ConfirmAccepts(0, None)
  {
  }

  /** A fresh store holding the one account the token tests start from. */
  method OneUser() returns (db: Db, u: UserId)
    ensures fresh(db) && db.Valid()
    ensures db.users == map[u := NewAccount("", "user", HashPassword("password", 0), DefaultRole, 0)]
  {
    db := new Db();
    u := db.AddUser(NewAccount("", "user", HashPassword("password", 0), DefaultRole, 0));
  }

  /**
   * `test_valid_reset_token`, through the reset handler: the account's reset
   * token sets the new password, which then verifies while the old one no
   * longer does.
   */
  method ValidResetScenario() returns (o: AuthViews.Outcome, newVerifies: bool, oldVerifies: bool)
    ensures o == AuthViews.PasswordReset && newVerifies && !oldVerifies
  {
    var db, u := OneUser();
    var form := AuthForms.ResetInput("new_password", "new_password");
    assert !Validators.IsSpace(form.password1[0]);
    o := AuthViews.ResetPassword(db, Visitor, Issued(ResetPassword, u, None), Some(form), 1);
    newVerifies := VerifyPassword(db.users[u].password, "new_password");
    oldVerifies := VerifyPassword(db.users[u].password, "password");
  }

  /**
   * `test_invalid_reset_token`, through the reset handler: a tampered token
   * (which decodes to nothing) is refused and the old password still verifies.
   */
  method TamperedResetScenario() returns (o: AuthViews.Outcome, oldVerifies: bool)
    ensures o == AuthViews.TokenRejected && oldVerifies
  {
    var db, u := OneUser();
    var form := AuthForms.ResetInput("new_password", "new_password");
    assert !Validators.IsSpace(form.password1[0]);
    o := AuthViews.ResetPassword(db, Visitor, None, Some(form), 1);
    oldVerifies := VerifyPassword(db.users[u].password, "password");
  }

  /**
   * `test_valid_email_change_token`, through the token handler: the account
   * moves to the token's address.
   */
  method ValidEmailChangeScenario() returns (o: AuthViews.Outcome, email: string)
    ensures o == AuthViews.EmailUpdated && email == "example@mail.com"
  {
    var db, u := OneUser();
    assert !EmailTaken(db.users, "example@mail.com") by {
      assert db.users[u].email == "";
    }
    o := AuthViews.UpdateEmailToken(db, SignedIn(u), Issued(ChangeEmail, u, Some("example@mail.com")));
    email := db.users[u].email;
  }

  /** `test_invalid_email_change_token`: another user's token changes nothing. */
  lemma ForeignEmailChangeScenario()
    ensures var users := map[0 := NewAccount("name@mail.com", "user", HashPassword("password", 0), DefaultRole, 0),
                             1 := NewAccount("mail@mail.com", "user1", HashPassword("password1", 1), DefaultRole, 0)];
      NewEmailFor(users, 1, Issued(ChangeEmail, 0, Some("new@mail.com"))) == None
  {
  }

  /** `test_duplicate_email`: a token for an address another account holds changes nothing. */
  lemma DuplicateEmailScenario()
    ensures var users := map[0 := NewAccount("sername@mail.com", "user", HashPassword("password", 0), DefaultRole, 0),
                             1 := NewAccount("ail@mail.com", "user1", HashPassword("password1", 1), DefaultRole, 0)];
      NewEmailFor(users, 0, Issued(ChangeEmail, 0, Some("ail@mail.com"))) == None
  {
    var users := map[0 := NewAccount("sername@mail.com", "user", HashPassword("password", 0), DefaultRole, 0),
                     1 := NewAccount("ail@mail.com", "user1", HashPassword("password1", 1), DefaultRole, 0)];
    assert users[1].email == "ail@mail.com";
  }
}
