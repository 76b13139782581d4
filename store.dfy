/**
 * The shared relational store the views work on: users, follow edges, posts
 * and comments. Each method is one ORM write followed by a commit.
 */
module Store {
  import opened Wrappers
  import opened Accounts
  import opened FollowGraph

  /**
   * The consistency rules of the store: emails and usernames are unique, every
   * account has its self-edge, and every edge joins two stored accounts.
   */
  ghost predicate Consistent(users: map<UserId, Account>, edges: set<Edge>) {
    && Unique(users)
    && (forall u :: u in users ==> (u, u) in edges)
    && (forall e :: e in edges ==> e.0 in users && e.1 in users)
  }

  /**
   * In a consistent store whose only edges are self-edges (nobody follows
   * anybody else), there are exactly as many edges as accounts.
   */
  lemma OnlySelfEdgesCount(users: map<UserId, Account>, edges: set<Edge>)
    requires Consistent(users, edges)
    requires forall e :: e in edges ==> e.0 == e.1
    ensures |edges| == |users|
  {
    assert edges == SelfEdges(users.Keys);
    SelfEdgesCount(users.Keys);
  }

  class Db {
    var users: map<UserId, Account>
    var edges: set<Edge>
    var posts: map<PostId, Post>
    var comments: map<CommentId, Comment>
    var nextUser: nat
    var nextPost: nat
    var nextComment: nat

    ghost predicate Valid()
      reads this
    {
      && Consistent(users, edges)
      && (forall u :: u in users ==> u < nextUser)
      && (forall p :: p in posts ==> p < nextPost)
      && (forall c :: c in comments ==> c < nextComment)
    }

    /** An empty database. */
    constructor ()
      ensures Valid()
      ensures users == map[] && edges == {} && posts == map[] && comments == map[]
    {
      users, edges, posts, comments := map[], {}, map[], map[];
      nextUser, nextPost, nextComment := 0, 0, 0;
    }

    /** `User.query.filter_by(username=name).first()`. */
    method FindByUsername(name: string) returns (r: Option<UserId>)
      requires Valid()
      ensures r.None? <==> !UsernameTaken(users, name)
      ensures r.Some? ==> r.value in users && users[r.value].username == name
      ensures r.Some? ==> r.value == UserNamed(users, name)
    {
      if id :| id in users && users[id].username == name {
        r := Some(id);
      } else {
        r := None;
      }
    }

    /** `User.query.filter_by(email=email).first()`. */
    method FindByEmail(email: string) returns (r: Option<UserId>)
      requires Valid()
      ensures r.None? <==> !EmailTaken(users, email)
      ensures r.Some? ==> r.value in users && users[r.value].email == email
      ensures r.Some? ==> r.value == UserWithEmail(users, email)
    {
      if id :| id in users && users[id].email == email {
        r := Some(id);
      } else {
        r := None;
      }
    }

    /**
     * Storing a new user: it gets the next id and its self-edge, which is why
     * its follower and followed counts start at 1.
     */
    method AddUser(acc: Account) returns (id: UserId)
      requires Valid()
      requires !EmailTaken(users, acc.email) && !UsernameTaken(users, acc.username)
      modifies this
      ensures Valid()
      ensures id !in old(users)
      ensures users == old(users)[id := acc]
      ensures edges == old(edges) + {(id, id)}
      ensures posts == old(posts) && comments == old(comments)
    {
      id := nextUser;
      InsertKeepsUnique(users, id, acc);
      users := users[id := acc];
      edges := edges + {(id, id)};
      nextUser := nextUser + 1;
    }

    /**
     * Writing one account back. The new email and username must each be the
     * old one or free: the store's unique constraints, which the forms check
     * before every such write.
     */
    method SetAccount(id: UserId, acc: Account)
      requires Valid() && id in users
      requires acc.email == users[id].email || !EmailTaken(users, acc.email)
      requires acc.username == users[id].username || !UsernameTaken(users, acc.username)
      modifies this
      ensures Valid()
      ensures users == old(users)[id := acc]
      ensures edges == old(edges) && posts == old(posts) && comments == old(comments)
    {
      UpdateKeepsUnique(users, id, acc);
      users := users[id := acc];
    }

    /** `a.follow(b)`: adds the edge (a, b) unless it is already there. */
    method AddEdge(a: UserId, b: UserId)
      requires Valid() && a in users && b in users
      modifies this
      ensures Valid()
      ensures edges == old(edges) + {(a, b)}
      ensures users == old(users) && posts == old(posts) && comments == old(comments)
    {
      edges := edges + {(a, b)};
    }

    /** `a.unfollow(b)` for another user `b`: removes the edge (a, b) if it is there. */
    method RemoveEdge(a: UserId, b: UserId)
      requires Valid() && a != b
      modifies this
      ensures Valid()
      ensures edges == old(edges) - {(a, b)}
      ensures users == old(users) && posts == old(posts) && comments == old(comments)
    {
      edges := edges - {(a, b)};
    }

    /**
     * `db.session.delete(user)`: the account goes, and with it every follow edge
     * that has it at either end; posts and comments are kept.
     */
    method DeleteUser(u: UserId)
      requires Valid() && u in users
      modifies this
      ensures Valid()
      ensures users == old(users) - {u}
      ensures edges == WithoutUser(old(edges), u)
      ensures posts == old(posts) && comments == old(comments)
    {
      users := users - {u};
      edges := WithoutUser(edges, u);
    }

    /** Storing a new post. */
    method AddPost(p: Post) returns (id: PostId)
      requires Valid()
      modifies this
      ensures Valid()
      ensures id !in old(posts) && posts == old(posts)[id := p]
      ensures users == old(users) && edges == old(edges) && comments == old(comments)
    {
      id := nextPost;
      posts := posts[id := p];
      nextPost := nextPost + 1;
    }

    /** Rewriting a stored post. */
    method SetPost(id: PostId, p: Post)
      requires Valid() && id in posts
      modifies this
      ensures Valid()
      ensures posts == old(posts)[id := p]
      ensures users == old(users) && edges == old(edges) && comments == old(comments)
    {
      posts := posts[id := p];
    }

    /** Storing a new comment. */
    method AddComment(c: Comment) returns (id: CommentId)
      requires Valid()
      modifies this
      ensures Valid()
      ensures id !in old(comments) && comments == old(comments)[id := c]
      ensures users == old(users) && edges == old(edges) && posts == old(posts)
    {
      id := nextComment;
      comments := comments[id := c];
      nextComment := nextComment + 1;
    }

    /** `comment.disabled = flag` on one stored comment. */
    method SetCommentDisabled(id: CommentId, flag: bool)
      requires Valid() && id in comments
      modifies this
      ensures Valid()
      ensures comments == old(comments)[id := old(comments)[id].(disabled := flag)]
      ensures users == old(users) && edges == old(edges) && posts == old(posts)
    {
      comments := comments[id := comments[id].(disabled := flag)];
    }
  }
}
