/**
 * The follow relation as a set of directed edges (follower, followed), and the
 * queries the User model answers from it: `followed` (edges a user starts),
 * `followers` (edges ending at a user), `is_following` and `is_followed_by`.
 * Every account carries a self-edge, so both counts start at 1.
 */
module FollowGraph {
  import opened Accounts

  /** (follower, followed). */
  type Edge = (UserId, UserId)

  /** `user.followed`: the edges whose follower is `u` (its own self-edge included). */
  function Followed(edges: set<Edge>, u: UserId): set<Edge> {
    set e | e in edges && e.0 == u
  }

  /** `user.followers`: the edges whose followed user is `u` (its own self-edge included). */
  function Followers(edges: set<Edge>, u: UserId): set<Edge> {
    set e | e in edges && e.1 == u
  }

  /** `a.is_following(b)`. */
  predicate IsFollowing(edges: set<Edge>, a: UserId, b: UserId) {
    (a, b) in edges
  }

  /** `a.is_followed_by(b)`. */
  predicate IsFollowedBy(edges: set<Edge>, a: UserId, b: UserId) {
    (b, a) in edges
  }

  /** The self-edges of a set of users. */
  function SelfEdges(users: set<UserId>): set<Edge> {
    set u | u in users :: (u, u)
  }

  /** What deleting user `u` leaves: every edge not touching `u`. */
  function WithoutUser(edges: set<Edge>, u: UserId): (rest: set<Edge>)
    ensures rest <= edges
    ensures forall e :: e in rest ==> e.0 != u && e.1 != u
    ensures forall e :: e in edges && e.0 != u && e.1 != u ==> e in rest
  {
    set e | e in edges && e.0 != u && e.1 != u
  }

  /** `is_following` and `is_followed_by` read the same edge from its two ends. */
  lemma FollowingIsFollowedByConverse(edges: set<Edge>, a: UserId, b: UserId)
    ensures IsFollowing(edges, a, b) <==> IsFollowedBy(edges, b, a)
  {
  }

  /** There is one self-edge per user, so a graph of self-edges only has as many edges as users. */
  lemma {:induction false} SelfEdgesCount(users: set<UserId>)
    ensures |SelfEdges(users)| == |users|
  {
    if users != {} {
      var x :| x in users;
      var rest := users - {x};
      SelfEdgesCount(rest);
      assert SelfEdges(users) == SelfEdges(rest) + {(x, x)};
      assert (x, x) !in SelfEdges(rest);
    }
  }

  /**
   * Adding a new edge (a, b) adds exactly one edge to `a.followed` and one to
   * `b.followers`, and leaves every other user's `followed` untouched.
   */
  lemma FollowAddsOne(edges: set<Edge>, a: UserId, b: UserId)
    requires (a, b) !in edges
    ensures |Followed(edges + {(a, b)}, a)| == |Followed(edges, a)| + 1
    ensures |Followers(edges + {(a, b)}, b)| == |Followers(edges, b)| + 1
    ensures forall u :: u != a ==> Followed(edges + {(a, b)}, u) == Followed(edges, u)
    ensures forall u :: u != b ==> Followers(edges + {(a, b)}, u) == Followers(edges, u)
  {
    assert Followed(edges + {(a, b)}, a) == Followed(edges, a) + {(a, b)};
    assert Followers(edges + {(a, b)}, b) == Followers(edges, b) + {(a, b)};
  }

  /**
   * Removing an existing edge (a, b) takes exactly one edge from `a.followed`
   * and one from `b.followers`, and leaves every other user's `followed` untouched.
   */
  lemma UnfollowRemovesOne(edges: set<Edge>, a: UserId, b: UserId)
    requires (a, b) in edges
    ensures |Followed(edges - {(a, b)}, a)| == |Followed(edges, a)| - 1
    ensures |Followers(edges - {(a, b)}, b)| == |Followers(edges, b)| - 1
    ensures forall u :: u != a ==> Followed(edges - {(a, b)}, u) == Followed(edges, u)
    ensures forall u :: u != b ==> Followers(edges - {(a, b)}, u) == Followers(edges, u)
  {
    assert Followed(edges, a) == Followed(edges - {(a, b)}, a) + {(a, b)};
    assert Followers(edges, b) == Followers(edges - {(a, b)}, b) + {(a, b)};
  }

  /**
   * Deleting `u` removes exactly the edges that mention it: as many as its
   * followed and followers edges, counting its self-edge once.
   */
  lemma {:induction false} DeleteCount(edges: set<Edge>, u: UserId)
    requires (u, u) in edges
    ensures |WithoutUser(edges, u)| == |edges| - (|Followed(edges, u)| + |Followers(edges, u)| - 1)
  {
    var out := Followed(edges, u);
    var inc := Followers(edges, u);
    var rest := WithoutUser(edges, u);
    assert edges == rest + (out + inc);
    assert rest !! (out + inc);
    assert out * inc == {(u, u)};
    assert |out + inc| == |out| + |inc| - |out * inc|;
  }
}
