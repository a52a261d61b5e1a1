/** The feed query `postsRouter.getAll` (src/server/api/routers/posts.ts):
    join every stored post to its author among the users the identity
    provider returned, or fail the whole request. */
module Posts {
  import opened Wrappers
  import opened Users

  /** A stored post row. `createdAt` is carried along untouched. */
  datatype Post = Post(id: string, authorId: string, content: string, createdAt: int)

  /** One element of the feed: the post and its author's public record. */
  datatype FeedEntry = FeedEntry(post: Post, author: PublicUser)

  /** The tRPC error codes this router throws. */
  datatype ErrorCode = InternalServerError

  /** A thrown `TRPCError`: its code and message. */
  datatype ApiError = ApiError(code: ErrorCode, message: string)

  /** The one error the feed join throws. */
  const AuthorNotFound := ApiError(InternalServerError, "Author for post not found")

  /** Page size of the post query (`take`) and of the user query (`limit`). */
  const PageSize := 100

  /** The wire name of an error code. */
  function CodeName(code: ErrorCode): string
  {
    match code
    case InternalServerError => "INTERNAL_SERVER_ERROR"
  }

  /** The router's own copy of `filterUserforClient`: the same four fields. */
  function FilterUserForClientLocal(user: User): (p: PublicUser)
    ensures p.id == user.id
    ensures p.username == user.username && p.firstName == user.firstName
    ensures p.profileImageUrl == user.profileImageUrl
  {
    PublicUser(user.id, user.username, user.profileImageUrl, user.firstName)
  }

  /** The router's copy and the shared helper agree on every user. */
  lemma LocalProjectionAgrees(user: User)
    ensures FilterUserForClientLocal(user) == FilterUserForClient(user)
  {
  }

  /** `users.map(filterUserforClient)` over the provider's answer. */
  function ProjectAll(users: seq<User>): (ps: seq<PublicUser>)
    ensures |ps| == |users|
    ensures forall i :: 0 <= i < |users| ==> ps[i] == FilterUserForClient(users[i])
  {
    if users == [] then []
    else [FilterUserForClientLocal(users[0])] + ProjectAll(users[1..])
  }

  /** Some user in `users` has the id `id`. */
  ghost predicate HasUser(users: seq<PublicUser>, id: string)
  {
    exists j :: 0 <= j < |users| && users[j].id == id
  }

  /** `j` is the first position of `users` whose id is `id`. */
  ghost predicate IsFirstMatch(users: seq<PublicUser>, id: string, j: int)
  {
    && 0 <= j < |users|
    && users[j].id == id
    && forall k :: 0 <= k < j ==> users[k].id != id
  }

  /** `users.find((user) => user.id === id)`: the first user with that id,
      or nothing when there is none. */
  function FindUser(users: seq<PublicUser>, id: string): (r: Option<PublicUser>)
    ensures r.None? <==> !HasUser(users, id)
    ensures r.Some? ==> exists j :: IsFirstMatch(users, id, j) && users[j] == r.value
  {
    if users == [] then None
    else if users[0].id == id then
      assert IsFirstMatch(users, id, 0);
      Some(users[0])
    else
      var r := FindUser(users[1..], id);
      assert HasUser(users[1..], id) <==> HasUser(users, id) by {
        if HasUser(users, id) {
          var j :| 0 <= j < |users| && users[j].id == id;
          assert users[1..][j - 1].id == id;
        }
      }
      assert forall j :: IsFirstMatch(users[1..], id, j) ==> IsFirstMatch(users, id, j + 1);
      r
  }

  /** The author record built at posts.ts:44-48: the found user spread, with
      `username` and `firstName` written again from that same user. */
  function WithNameOverrides(author: PublicUser): (a: PublicUser)
    ensures a == author
  {
    author.(username := author.username, firstName := author.firstName)
  }

  /** `posts.map(...)` with `find` and a throw inside: every post paired with
      its author, or the single error for the whole feed as soon as one
      author is missing. */
  function JoinFeed(posts: seq<Post>, users: seq<PublicUser>): (r: Result<seq<FeedEntry>, ApiError>)
    ensures r.Ok? ==> |r.value| == |posts|
    ensures r.Err? ==> r.error == AuthorNotFound && CodeName(r.error.code) == "INTERNAL_SERVER_ERROR"
  {
    if posts == [] then Ok([])
    else
      match FindUser(users, posts[0].authorId)
      case None => Err(AuthorNotFound)
      case Some(author) =>
        match JoinFeed(posts[1..], users)
        case Err(e) => Err(e)
        case Ok(rest) => Ok([FeedEntry(posts[0], WithNameOverrides(author))] + rest)
  }

  /** The whole query handler, given what the post store and the identity
      provider return: project the users, then join. */
  function GetAll(posts: seq<Post>, providerUsers: seq<User>): (r: Result<seq<FeedEntry>, ApiError>)
    requires |posts| <= PageSize && |providerUsers| <= PageSize
    ensures r.Ok? ==> |r.value| == |posts|
    ensures r.Err? ==> r.error == AuthorNotFound
  {
    JoinFeed(posts, ProjectAll(providerUsers))
  }

  /** The ids sent to the identity provider: one per post, in order. */
  function AuthorIds(posts: seq<Post>): (ids: seq<string>)
    ensures |ids| == |posts|
    ensures forall i :: 0 <= i < |posts| ==> ids[i] == posts[i].authorId
  {
    if posts == [] then [] else [posts[0].authorId] + AuthorIds(posts[1..])
  }

  /** On success the feed has one entry per post, in the same order; each
      entry holds the post unchanged and the user `find` returned for it. */
  lemma {:induction false} JoinFeedShape(posts: seq<Post>, users: seq<PublicUser>)
    requires JoinFeed(posts, users).Ok?
    ensures |JoinFeed(posts, users).value| == |posts|
    ensures forall i :: 0 <= i < |posts| ==>
      && JoinFeed(posts, users).value[i].post == posts[i]
      && FindUser(users, posts[i].authorId) == Some(JoinFeed(posts, users).value[i].author)
  {
    if posts != [] {
      JoinFeedShape(posts[1..], users);
      var feed := JoinFeed(posts, users).value;
      forall i | 0 <= i < |posts|
        ensures feed[i].post == posts[i] && FindUser(users, posts[i].authorId) == Some(feed[i].author)
      {
        if i > 0 {
          assert feed[i] == JoinFeed(posts[1..], users).value[i - 1];
          assert posts[i] == posts[1..][i - 1];
        }
      }
    }
  }

  /** The feed fails exactly when some post's author is not among the users:
      a missing author is never skipped, and nothing else fails the feed. */
  lemma {:induction false} JoinFeedFailsIff(posts: seq<Post>, users: seq<PublicUser>)
    ensures JoinFeed(posts, users).Err? <==>
      exists i :: 0 <= i < |posts| && !HasUser(users, posts[i].authorId)
  {
    if posts != [] {
      JoinFeedFailsIff(posts[1..], users);
      if exists i :: 0 <= i < |posts| && !HasUser(users, posts[i].authorId) {
        var i :| 0 <= i < |posts| && !HasUser(users, posts[i].authorId);
        if i > 0 {
          assert posts[1..][i - 1] == posts[i];
        }
      }
      if exists i :: 0 <= i < |posts[1..]| && !HasUser(users, posts[1..][i].authorId) {
        var i :| 0 <= i < |posts[1..]| && !HasUser(users, posts[1..][i].authorId);
        assert posts[i + 1] == posts[1..][i];
      }
    }
  }

  /** An empty post list gives an empty feed, whatever the users. */
  lemma JoinFeedEmpty(users: seq<PublicUser>)
    ensures JoinFeed([], users) == Ok([])
  {
  }

  /** On success every author's id is its post's `authorId`, and the author
      is the first user in list order with that id. */
  lemma JoinFeedFirstMatchingAuthor(posts: seq<Post>, users: seq<PublicUser>, i: int)
    requires JoinFeed(posts, users).Ok? && 0 <= i < |posts|
    ensures |JoinFeed(posts, users).value| == |posts|
    ensures JoinFeed(posts, users).value[i].author.id == posts[i].authorId
    ensures exists j :: IsFirstMatch(users, posts[i].authorId, j)
                     && users[j] == JoinFeed(posts, users).value[i].author
  {
    JoinFeedShape(posts, users);
  }

  /** Through the whole handler: on success each author is the projection of
      the first provider user whose id is the post's `authorId`. */
  lemma GetAllAuthorIsProjection(posts: seq<Post>, providerUsers: seq<User>, i: int)
    requires |posts| <= PageSize && |providerUsers| <= PageSize
    requires GetAll(posts, providerUsers).Ok? && 0 <= i < |posts|
    ensures |GetAll(posts, providerUsers).value| == |posts|
    ensures GetAll(posts, providerUsers).value[i].post == posts[i]
    ensures exists j :: (
      && 0 <= j < |providerUsers|
      && providerUsers[j].id == posts[i].authorId
      && (forall k :: 0 <= k < j ==> providerUsers[k].id != posts[i].authorId)
      && GetAll(posts, providerUsers).value[i].author == FilterUserForClient(providerUsers[j]))
  {
    var projected := ProjectAll(providerUsers);
    JoinFeedFirstMatchingAuthor(posts, projected, i);
    JoinFeedShape(posts, projected);
    var j :| IsFirstMatch(projected, posts[i].authorId, j)
           && projected[j] == JoinFeed(posts, projected).value[i].author;
    assert forall k :: 0 <= k < j ==> providerUsers[k].id == projected[k].id;
  }

  /** The feed never depends on the provider users' sensitive fields: giving
      every provider user other sensitive fields gives the same feed. */
  lemma GetAllIgnoresSensitive(posts: seq<Post>, us1: seq<User>, us2: seq<User>)
    requires |posts| <= PageSize && |us1| <= PageSize && |us1| == |us2|
    requires forall k :: 0 <= k < |us1| ==>
      us2[k] == Assemble(FilterUserForClient(us1[k]), SensitivePart(us2[k]))
    ensures GetAll(posts, us1) == GetAll(posts, us2)
  {
    forall k | 0 <= k < |us1|
      ensures FilterUserForClient(us2[k]) == FilterUserForClient(us1[k])
    {
      ProjectionDropsSensitive(FilterUserForClient(us1[k]), SensitivePart(us2[k]));
    }
    assert ProjectAll(us1) == ProjectAll(us2);
  }

  /** Through the whole handler: the feed fails exactly when one of the ids
      asked of the identity provider matches none of the users it returned. */
  lemma GetAllFailsIff(posts: seq<Post>, providerUsers: seq<User>)
    requires |posts| <= PageSize && |providerUsers| <= PageSize
    ensures GetAll(posts, providerUsers).Err? <==>
      exists k :: 0 <= k < |AuthorIds(posts)| &&
        forall j :: 0 <= j < |providerUsers| ==> providerUsers[j].id != AuthorIds(posts)[k]
  {
    var projected := ProjectAll(providerUsers);
    var ids := AuthorIds(posts);
    JoinFeedFailsIff(posts, projected);
    if GetAll(posts, providerUsers).Err? {
      var k :| 0 <= k < |posts| && !HasUser(projected, posts[k].authorId);
      forall j | 0 <= j < |providerUsers| ensures providerUsers[j].id != ids[k] {
        assert projected[j].id == providerUsers[j].id;
      }
    } else {
      forall k | 0 <= k < |ids|
        ensures exists j :: 0 <= j < |providerUsers| && providerUsers[j].id == ids[k]
      {
        var j :| 0 <= j < |projected| && projected[j].id == posts[k].authorId;
        assert providerUsers[j].id == ids[k];
      }
    }
  }
}
