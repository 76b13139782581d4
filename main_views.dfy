/**
 * The handlers of the main blueprint that decide something or change the
 * store. Each returns what the handler answers with (a redirect, a page, an
 * abort) as an Outcome; flashing and rendering are left to the caller.
 * `@login_required` answers an anonymous visitor with LoginRequired, and
 * `@permission_required(p)` / `@admin_required` answer a user without the
 * capability with Forbidden.
 */
module MainViews {
  import opened Wrappers
  import opened Validators
  import opened Permissions
  import opened Accounts
  import opened FollowGraph
  import opened Store
  import opened ProfileForms

  datatype Outcome =
    | LoginRequired
    | Forbidden
    | NotFound
    | InvalidUser
    | AlreadyFollowing
    | StartedFollowing
    | NotFollowing
    | StoppedFollowing
    | Moderated
    | Posted(post: PostId)
    | Listing(showFollowed: bool)
    | Commented(comment: CommentId)
    | CommentsPage(page: int)
    | PostUpdated
    | ProfileUpdated
    | ShowForm
    | ServerError

  /** Past `@login_required` and `@permission_required(perm)`. */
  predicate Allowed(users: map<UserId, Account>, v: Viewer, perm: Permission)
    requires Known(users, v)
  {
    v.SignedIn? && ViewerCan(users, v, perm)
  }

  /** What the two decorators answer when they stop the request. */
  predicate GuardOutcome(users: map<UserId, Account>, v: Viewer, perm: Permission, o: Outcome)
    requires Known(users, v)
  {
    && (v.Visitor? ==> o == LoginRequired)
    && (v.SignedIn? && !ViewerCan(users, v, perm) ==> o == Forbidden)
  }

  // ---- home

  /** The followed-posts listing: only for a signed-in user, and then as the cookie says. */
  function ShowFollowed(v: Viewer, cookie: string): (show: bool)
    ensures v.Visitor? ==> !show
  {
    if v.SignedIn? then cookie != "" else false
  }

  /**
   * `home`: a post is created only by a user who can WRITE and has submitted a
   * non-blank body; otherwise the listing is shown.
   */
  method Home(db: Db, v: Viewer, submission: Option<string>, cookie: string) returns (o: Outcome)
    requires db.Valid() && Known(db.users, v)
    modifies db
    ensures db.Valid()
    ensures db.users == old(db.users) && db.edges == old(db.edges) && db.comments == old(db.comments)
    ensures o.Posted? <==> ViewerCan(old(db.users), v, Write) && submission.Some? && DataRequired(submission.value)
    ensures o.Posted? ==>
      && v.SignedIn? && o.post !in old(db.posts)
      && db.posts == old(db.posts)[o.post := Post(v.id, submission.value)]
    ensures !o.Posted? ==> o == Listing(ShowFollowed(v, cookie)) && db.posts == old(db.posts)
  {
    if ViewerCan(db.users, v, Write) && submission.Some? && DataRequired(submission.value) {
      var id := db.AddPost(Post(v.id, submission.value));
      return Posted(id);
    }
    o := Listing(ShowFollowed(v, cookie));
  }

  // ---- moderation

  /** `moderate_enable` and `moderate_disable`: set one comment's `disabled` flag. */
  method Moderate(db: Db, v: Viewer, id: CommentId, disable: bool) returns (o: Outcome)
    requires db.Valid() && Known(db.users, v)
    modifies db
    ensures db.Valid()
    ensures db.users == old(db.users) && db.edges == old(db.edges) && db.posts == old(db.posts)
    ensures GuardOutcome(old(db.users), v, Permission.Moderate, o)
    ensures Allowed(old(db.users), v, Permission.Moderate) ==>
      o == (if id in old(db.comments) then Moderated else NotFound)
    ensures o == Moderated ==>
      db.comments == old(db.comments)[id := old(db.comments)[id].(disabled := disable)]
    ensures o != Moderated ==> db.comments == old(db.comments)
  {
    if v.Visitor? {
      return LoginRequired;
    }
    if !ViewerCan(db.users, v, Permission.Moderate) {
      return Forbidden;
    }
    if id !in db.comments {
      return NotFound;
    }
    db.SetCommentDisabled(id, disable);
    o := Moderated;
  }

  /** Moderation touches only the flag of the one comment it names. */
  lemma ModerationIsLocal(comments: map<CommentId, Comment>, id: CommentId, disable: bool)
    requires id in comments
    ensures var after := comments[id := comments[id].(disabled := disable)];
      && after.Keys == comments.Keys
      && after[id].disabled == disable
      && after[id].(disabled := comments[id].disabled) == comments[id]
      && forall k :: k in comments && k != id ==> after[k] == comments[k]
  {
  }

  // ---- post: its comments and the "last page" redirect

  const CommentsPerPage: nat := 15

  /** The comments on post `p`. */
  function CommentsOn(comments: map<CommentId, Comment>, p: PostId): set<CommentId> {
    set c | c in comments && comments[c].post == p
  }

  /**
   * `(count - 1) // per_page + 1`: the page holding the last of `count` items.
   * Python's `//` floors; so does Dafny's `/` for a positive divisor.
   */
  function LastPage(count: nat, perPage: nat): (page: int)
    requires perPage > 0
    ensures count == 0 ==> page == 0
    ensures count >= 1 ==> 1 <= page && (page - 1) * perPage < count <= page * perPage
  {
    var q := (count - 1) / perPage;
    var r := (count - 1) % perPage;
    assert count - 1 == q * perPage + r && 0 <= r < perPage;
    assert (q + 1) * perPage == q * perPage + perPage;
    q + 1
  }

  /** The page `post` shows: the one asked for, or the last one when the request says -1. */
  function CommentPage(requested: int, count: nat): int {
    if requested == -1 then LastPage(count, CommentsPerPage) else requested
  }

  /**
   * A new comment on a post is the last of its comments, and the page the
   * "-1" redirect lands on holds it: with n comments in time order, that page
   * covers positions (page-1)*15+1 .. page*15, and n is among them.
   */
  lemma NewCommentOnLastPage(comments: map<CommentId, Comment>, id: CommentId, c: Comment)
    requires id !in comments
    ensures var n := |CommentsOn(comments[id := c], c.post)|;
      && n == |CommentsOn(comments, c.post)| + 1
      && (CommentPage(-1, n) - 1) * CommentsPerPage < n <= CommentPage(-1, n) * CommentsPerPage
  {
    assert CommentsOn(comments[id := c], c.post) == CommentsOn(comments, c.post) + {id};
  }

  /**
   * `post`: a submitted non-blank comment is stored under the current user and
   * the reader is sent to its last page; otherwise the requested page of
   * comments is shown, the last one when the request says -1. An anonymous
   * submitter cannot be made a comment's author, so the request fails.
   */
  method ShowPost(db: Db, v: Viewer, p: PostId, submission: Option<string>, requested: int) returns (o: Outcome)
    requires db.Valid() && Known(db.users, v)
    modifies db
    ensures db.Valid()
    ensures db.users == old(db.users) && db.edges == old(db.edges) && db.posts == old(db.posts)
    ensures p !in old(db.posts) ==> o == NotFound
    ensures p in old(db.posts) && submission.Some? && DataRequired(submission.value) ==>
      if v.SignedIn? then o.Commented? && o.comment !in old(db.comments)
        && db.comments == old(db.comments)[o.comment := Accounts.Comment.Comment(v.id, p, submission.value, false)]
      else o == ServerError
    ensures p in old(db.posts) && !(submission.Some? && DataRequired(submission.value)) ==>
      o == CommentsPage(CommentPage(requested, |CommentsOn(old(db.comments), p)|))
    ensures !o.Commented? ==> db.comments == old(db.comments)
  {
    if p !in db.posts {
      return NotFound;
    }
    if submission.Some? && DataRequired(submission.value) {
      if v.Visitor? {
        return ServerError;
      }
      var id := db.AddComment(Accounts.Comment.Comment(v.id, p, submission.value, false));
      return Commented(id);
    }
    o := CommentsPage(CommentPage(requested, |CommentsOn(db.comments, p)|));
  }

  // ---- edit_post

  /** `edit_post`'s test as written: `current_user != post.author or not can(ADMIN)` aborts. */
  predicate MayEditPostAsWritten(users: map<UserId, Account>, v: Viewer, author: UserId)
    requires Known(users, v)
  {
    !(v != SignedIn(author) || !ViewerCan(users, v, Admin))
  }

  /** The evident intent: the author, or an administrator, may edit a post. */
  predicate MayEditPost(users: map<UserId, Account>, v: Viewer, author: UserId)
    requires Known(users, v)
  {
    v.SignedIn? && (v.id == author || ViewerCan(users, v, Admin))
  }

  /**
   * As written, only an author who is also an administrator passes: the
   * author of a post with the default role is refused, and so is an
   * administrator editing someone else's post.
   */
  lemma EditPostAsWrittenNeedsBoth(users: map<UserId, Account>, v: Viewer, author: UserId)
    requires Known(users, v)
    ensures MayEditPostAsWritten(users, v, author) <==>
      v == SignedIn(author) && users[author].role == Administrator
    ensures v == SignedIn(author) && users[author].role == User ==>
      !MayEditPostAsWritten(users, v, author) && MayEditPost(users, v, author)
  {
  }

  /** The intended rule: anonymous visitors never edit; authors and administrators always may. */
  lemma EditPostRule(users: map<UserId, Account>, v: Viewer, author: UserId)
    requires Known(users, v)
    ensures v.Visitor? ==> !MayEditPost(users, v, author)
    ensures v == SignedIn(author) ==> MayEditPost(users, v, author)
    ensures v.SignedIn? && users[v.id].role == Administrator ==> MayEditPost(users, v, author)
    ensures v.SignedIn? && v.id != author && users[v.id].role != Administrator ==> !MayEditPost(users, v, author)
  {
  }

  /** `edit_post`: a missing post is 404, an unauthorised editor 403, a non-blank body replaces the post's. */
  method EditPost(db: Db, v: Viewer, p: PostId, submission: Option<string>) returns (o: Outcome)
    requires db.Valid() && Known(db.users, v)
    modifies db
    ensures db.Valid()
    ensures db.users == old(db.users) && db.edges == old(db.edges) && db.comments == old(db.comments)
    ensures p !in old(db.posts) ==> o == NotFound
    ensures p in old(db.posts) && !MayEditPost(old(db.users), v, old(db.posts)[p].author) ==> o == Forbidden
    ensures p in old(db.posts) && MayEditPost(old(db.users), v, old(db.posts)[p].author) ==>
      if submission.Some? && DataRequired(submission.value)
      then o == PostUpdated && db.posts == old(db.posts)[p := old(db.posts)[p].(body := submission.value)]
      else o == ShowForm
    ensures o != PostUpdated ==> db.posts == old(db.posts)
  {
    if p !in db.posts {
      return NotFound;
    }
    if !MayEditPost(db.users, v, db.posts[p].author) {
      return Forbidden;
    }
    if submission.Some? && DataRequired(submission.value) {
      db.SetPost(p, db.posts[p].(body := submission.value));
      return PostUpdated;
    }
    o := ShowForm;
  }

  // ---- follow / unfollow

  /** The edge set after `follow` finds `target`: the edge is added unless already there. */
  function FollowEdges(edges: set<Edge>, current: UserId, target: UserId): (after: set<Edge>)
    ensures IsFollowing(after, current, target)
    ensures after - {(current, target)} == edges - {(current, target)}
  {
    if (current, target) in edges then edges else edges + {(current, target)}
  }

  /** The edge set after `unfollow` finds `target`, as written: the edge goes if it is there. */
  function UnfollowEdgesAsWritten(edges: set<Edge>, current: UserId, target: UserId): set<Edge> {
    if (current, target) in edges then edges - {(current, target)} else edges
  }

  /**
   * As written, `/unfollow/<own username>` finds the self-edge, so
   * `is_following` holds and the self-edge is deleted: the store is left with
   * an account that has no self-edge.
   */
  lemma UnfollowSelfAsWrittenDropsSelfEdge(users: map<UserId, Account>, edges: set<Edge>, u: UserId)
    requires Consistent(users, edges) && u in users
    ensures (u, u) !in UnfollowEdgesAsWritten(edges, u, u)
    ensures !Consistent(users, UnfollowEdgesAsWritten(edges, u, u))
  {
  }

  /** The edge set after `unfollow` as intended: the self-edge is not a follow and stays. */
  function UnfollowEdges(edges: set<Edge>, current: UserId, target: UserId): (after: set<Edge>)
    ensures current != target ==> !IsFollowing(after, current, target)
    ensures after + {(current, target)} == edges + {(current, target)}
    ensures (current, current) in edges ==> (current, current) in after
  {
    if current != target && (current, target) in edges then edges - {(current, target)} else edges
  }

  /**
   * `follow` and `unfollow` undo each other: following a user one did not
   * follow and then unfollowing them restores the graph, and so does
   * unfollowing a user one followed and then following them again. Both
   * counts return to what they were.
   */
  lemma FollowUnfollowRoundTrip(edges: set<Edge>, a: UserId, b: UserId)
    requires a != b
    ensures (a, b) !in edges ==> UnfollowEdges(FollowEdges(edges, a, b), a, b) == edges
    ensures (a, b) in edges ==> FollowEdges(UnfollowEdges(edges, a, b), a, b) == edges
    ensures (a, b) !in edges ==>
      && |Followed(FollowEdges(edges, a, b), a)| == |Followed(edges, a)| + 1
      && |Followers(FollowEdges(edges, a, b), b)| == |Followers(edges, b)| + 1
  {
    if (a, b) !in edges {
      FollowAddsOne(edges, a, b);
    }
  }

  /** Following and (intended) unfollowing keep the store consistent: every self-edge survives. */
  lemma FollowUnfollowKeepConsistent(users: map<UserId, Account>, edges: set<Edge>, a: UserId, b: UserId)
    requires Consistent(users, edges) && a in users && b in users
    ensures Consistent(users, FollowEdges(edges, a, b))
    ensures Consistent(users, UnfollowEdges(edges, a, b))
  {
  }

  /**
   * `follow`: an unknown username, or a user already followed, leaves the graph
   * as it was; otherwise exactly the edge (current user, target) is added.
   */
  method FollowUser(db: Db, v: Viewer, username: string) returns (o: Outcome)
    requires db.Valid() && Known(db.users, v)
    modifies db
    ensures db.Valid()
    ensures db.users == old(db.users) && db.posts == old(db.posts) && db.comments == old(db.comments)
    ensures GuardOutcome(old(db.users), v, Permission.Follow, o)
    ensures Allowed(old(db.users), v, Permission.Follow) && !UsernameTaken(old(db.users), username) ==>
      o == InvalidUser
    ensures Allowed(old(db.users), v, Permission.Follow) && UsernameTaken(old(db.users), username) ==>
      var target := UserNamed(old(db.users), username);
      && o == (if (v.id, target) in old(db.edges) then AlreadyFollowing else StartedFollowing)
      && db.edges == FollowEdges(old(db.edges), v.id, target)
    ensures o != StartedFollowing ==> db.edges == old(db.edges)
    ensures o == StartedFollowing ==> |db.edges| == |old(db.edges)| + 1
  {
    if v.Visitor? {
      return LoginRequired;
    }
    if !ViewerCan(db.users, v, Permission.Follow) {
      return Forbidden;
    }
    var found := db.FindByUsername(username);
    if found.None? {
      return InvalidUser;
    }
    var target := found.value;
    if (v.id, target) in db.edges {
      return AlreadyFollowing;
    }
    db.AddEdge(v.id, target);
    o := StartedFollowing;
  }

  /**
   * `unfollow`: an unknown username, or a user not followed (one's own account
   * included), leaves the graph as it was; otherwise exactly the edge
   * (current user, target) is removed.
   */
  method UnfollowUser(db: Db, v: Viewer, username: string) returns (o: Outcome)
    requires db.Valid() && Known(db.users, v)
    modifies db
    ensures db.Valid()
    ensures db.users == old(db.users) && db.posts == old(db.posts) && db.comments == old(db.comments)
    ensures GuardOutcome(old(db.users), v, Permission.Follow, o)
    ensures Allowed(old(db.users), v, Permission.Follow) && !UsernameTaken(old(db.users), username) ==>
      o == InvalidUser
    ensures Allowed(old(db.users), v, Permission.Follow) && UsernameTaken(old(db.users), username) ==>
      var target := UserNamed(old(db.users), username);
      && o == (if target != v.id && (v.id, target) in old(db.edges) then StoppedFollowing else NotFollowing)
      && db.edges == UnfollowEdges(old(db.edges), v.id, target)
    ensures o != StoppedFollowing ==> db.edges == old(db.edges)
    ensures o == StoppedFollowing ==> |db.edges| == |old(db.edges)| - 1
  {
    if v.Visitor? {
      return LoginRequired;
    }
    if !ViewerCan(db.users, v, Permission.Follow) {
      return Forbidden;
    }
    var found := db.FindByUsername(username);
    if found.None? {
      return InvalidUser;
    }
    var target := found.value;
    if target == v.id || (v.id, target) !in db.edges {
      return NotFollowing;
    }
    db.RemoveEdge(v.id, target);
    o := StoppedFollowing;
  }

  // ---- edit_profile and edit_profile_admin

  /** `edit_profile`: a valid submission rewrites the user's name, location and about-me. */
  method EditProfile(db: Db, v: Viewer, submission: Option<ProfileInput>) returns (o: Outcome)
    requires db.Valid() && Known(db.users, v)
    modifies db
    ensures db.Valid()
    ensures db.edges == old(db.edges) && db.posts == old(db.posts) && db.comments == old(db.comments)
    ensures v.Visitor? ==> o == LoginRequired
    ensures v.SignedIn? ==> o == (if submission.Some? && ProfileValid(submission.value) then ProfileUpdated else ShowForm)
    ensures o == ProfileUpdated ==> db.users == old(db.users)[v.id := old(db.users)[v.id].(
      name := submission.value.name, location := submission.value.location, aboutMe := submission.value.aboutMe)]
    ensures o != ProfileUpdated ==> db.users == old(db.users)
  {
    if v.Visitor? {
      return LoginRequired;
    }
    if submission.Some? && ProfileValid(submission.value) {
      var f := submission.value;
      db.SetAccount(v.id, db.users[v.id].(name := f.name, location := f.location, aboutMe := f.aboutMe));
      return ProfileUpdated;
    }
    o := ShowForm;
  }

  /** The account the admin editor writes back. */
  function AdminEdited(acc: Account, f: AdminEditInput, role: Role): Account {
    acc.(name := f.name, username := f.username, email := f.email, confirmed := f.confirmed,
         role := role, location := f.location, aboutMe := f.aboutMe)
  }

  /**
   * `edit_profile_admin`: an administrator rewrites another account from a
   * valid form; the role is the stored role with the chosen id. Because the
   * form lets an email or username through only when it is unchanged or free,
   * emails and usernames stay unique.
   */
  method EditProfileAdmin(
    db: Db, v: Viewer, target: UserId, roles: seq<RoleRow>, submission: Option<AdminEditInput>,
    isEmail: string -> bool)
    returns (o: Outcome)
    requires db.Valid() && Known(db.users, v)
    requires forall i, j :: 0 <= i < j < |roles| ==> roles[i].id != roles[j].id
    modifies db
    ensures db.Valid()
    ensures db.edges == old(db.edges) && db.posts == old(db.posts) && db.comments == old(db.comments)
    ensures GuardOutcome(old(db.users), v, Admin, o)
    ensures Allowed(old(db.users), v, Admin) ==>
      if target !in old(db.users) then o == NotFound
      else if submission.Some? && AdminEditValid(old(db.users), roles, old(db.users)[target], submission.value, isEmail)
      then o == ProfileUpdated
      else o == ShowForm
    ensures o == ProfileUpdated ==>
      && db.users == old(db.users)[target := AdminEdited(old(db.users)[target], submission.value, db.users[target].role)]
      && exists k :: 0 <= k < |roles| && roles[k].id == submission.value.roleId && roles[k].role == db.users[target].role
    ensures o != ProfileUpdated ==> db.users == old(db.users)
  {
    if v.Visitor? {
      return LoginRequired;
    }
    if !ViewerCan(db.users, v, Admin) {
      return Forbidden;
    }
    if target !in db.users {
      return NotFound;
    }
    if submission.Some? && AdminEditValid(db.users, roles, db.users[target], submission.value, isEmail) {
      var f := submission.value;
      var j :| 0 <= j < |RoleChoices(roles)| && RoleChoices(roles)[j].id == f.roleId;
      RoleChoicesCoverRoles(roles, RoleChoices(roles)[j]);
      var k :| 0 <= k < |roles| && roles[k] == RoleChoices(roles)[j];
      db.SetAccount(target, AdminEdited(db.users[target], f, roles[k].role));
      return ProfileUpdated;
    }
    o := ShowForm;
  }
}
