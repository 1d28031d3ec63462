/** The trending-posts computation of the client (TrendingPosts.js): gather
  * every user's posts tagged with the user's name, give each post its
  * comment count, sort by that count in place, and keep the posts whose
  * count equals the largest one.
  *
  * The three kinds of HTTP request become input data: the `/users` answer,
  * and total functions from a user id to that user's posts and from a post
  * id to its comments, where `None` stands for a request that threw. */
module TrendingPosts {
  import opened Wrappers

  type UserId = int
  type PostId = int

  /** An element of the `/users` answer. */
  datatype User = User(id: UserId, name: string)

  /** An upstream post; `content` is the text the view shows. */
  datatype Post = Post(id: PostId, userId: UserId, content: string)

  /** An upstream comment; only how many there are matters here. */
  datatype Comment = Comment(id: int, postId: PostId, content: string)

  /** `{ ...post, userName: user.name }`. */
  datatype TaggedPost = TaggedPost(post: Post, userName: string)

  /** `{ ...post, commentCount }`. */
  datatype CountedPost = CountedPost(tagged: TaggedPost, commentCount: nat)

  const FetchPostsError: string := "Failed to fetch posts"
  const TrendingError: string := "Failed to fetch trending posts"

  // ---------------------------------------------------------------------
  // fetchAllPosts
  // ---------------------------------------------------------------------

  /** `postsResponse.data.map(post => ({ ...post, userName: user.name }))`. */
  function TagPosts(posts: seq<Post>, name: string): (tagged: seq<TaggedPost>)
    ensures |tagged| == |posts|
    ensures forall k :: 0 <= k < |tagged| ==> tagged[k].post == posts[k] && tagged[k].userName == name
  {
    seq(|posts|, k requires 0 <= k < |posts| => TaggedPost(posts[k], name))
  }

  /** What `fetchAllPosts` accumulates over `users`: each user's tagged
    * posts appended in user order, or `None` as soon as one user's posts
    * cannot be fetched (or are not an array, so `.map` throws). Gathering
    * succeeds exactly when every user's posts were fetched. */
  function AllPosts(users: seq<User>, postsOf: UserId -> Option<seq<Post>>): (r: Option<seq<TaggedPost>>)
    ensures r.Some? <==> forall i :: 0 <= i < |users| ==> postsOf(users[i].id).Some?
    decreases |users|
  {
    if users == [] then Some([])
    else
      var last := users[|users| - 1];
      assert forall i :: 0 <= i < |users| - 1 ==> users[..|users| - 1][i] == users[i];
      match AllPosts(users[..|users| - 1], postsOf)
      case None => None
      case Some(acc) =>
        match postsOf(last.id)
        case None => None
        case Some(posts) => Some(acc + TagPosts(posts, last.name))
  }

  /** Joining two partial results: both must have succeeded. */
  function Concat(x: Option<seq<TaggedPost>>, y: Option<seq<TaggedPost>>): Option<seq<TaggedPost>>
  {
    if x.Some? && y.Some? then Some(x.value + y.value) else None
  }

  /** Gathering over two consecutive groups of users is the concatenation of
    * the two gatherings: the posts come out in user order. */
  lemma {:induction false} AllPostsAppend(first: seq<User>, second: seq<User>,
                                          postsOf: UserId -> Option<seq<Post>>)
    ensures AllPosts(first + second, postsOf) == Concat(AllPosts(first, postsOf), AllPosts(second, postsOf))
    decreases |second|
  {
    if second == [] {
      assert first + second == first;
      if AllPosts(first, postsOf).Some? {
        assert AllPosts(first, postsOf).value + [] == AllPosts(first, postsOf).value;
      }
    } else {
      var front := second[..|second| - 1];
      var last := second[|second| - 1];
      assert (first + second)[..|first + second| - 1] == first + front;
      assert (first + second)[|first + second| - 1] == last;
      AllPostsAppend(first, front, postsOf);
      var a, f := AllPosts(first, postsOf), AllPosts(front, postsOf);
      if a.Some? && f.Some? && postsOf(last.id).Some? {
        var tagged := TagPosts(postsOf(last.id).value, last.name);
        assert a.value + f.value + tagged == a.value + (f.value + tagged);
      }
    }
  }

  /** One user on its own contributes exactly its posts, each tagged with
    * its name. */
  lemma AllPostsOfOneUser(u: User, postsOf: UserId -> Option<seq<Post>>)
    ensures AllPosts([u], postsOf) ==
            match postsOf(u.id)
            case None => None
            case Some(posts) => Some(TagPosts(posts, u.name))
  {
    assert [u][..0] == [];
    if postsOf(u.id).Some? {
      var tagged := TagPosts(postsOf(u.id).value, u.name);
      assert [] + tagged == tagged;
    }
  }

  /** Every gathered post is a post of some user, carrying that user's name
    * and otherwise unchanged. */
  lemma {:induction false} AllPostsFromTheirUsers(users: seq<User>, postsOf: UserId -> Option<seq<Post>>)
    requires AllPosts(users, postsOf).Some?
    ensures var all := AllPosts(users, postsOf).value;
            forall k :: 0 <= k < |all| ==>
              exists i :: 0 <= i < |users| && postsOf(users[i].id).Some?
                          && all[k].post in postsOf(users[i].id).value
                          && all[k].userName == users[i].name
    decreases |users|
  {
    if users != [] {
      var front := users[..|users| - 1];
      var last := users[|users| - 1];
      AllPostsFromTheirUsers(front, postsOf);
      var acc := AllPosts(front, postsOf).value;
      var posts := postsOf(last.id).value;
      var all := AllPosts(users, postsOf).value;
      assert all == acc + TagPosts(posts, last.name);
      forall k | 0 <= k < |all|
        ensures exists i :: 0 <= i < |users| && postsOf(users[i].id).Some?
                            && all[k].post in postsOf(users[i].id).value
                            && all[k].userName == users[i].name
      {
        if k < |acc| {
          var i :| 0 <= i < |front| && postsOf(front[i].id).Some?
                   && acc[k].post in postsOf(front[i].id).value
                   && acc[k].userName == front[i].name;
          assert users[i] == front[i];
        } else {
          assert all[k].post == posts[k - |acc|];
          assert users[|users| - 1] == last;
        }
      }
    }
  }

  /** Nothing is lost: every post of every user appears, tagged with its
    * user's name. */
  lemma {:induction false} AllPostsComplete(users: seq<User>, postsOf: UserId -> Option<seq<Post>>)
    requires AllPosts(users, postsOf).Some?
    ensures forall i, p :: 0 <= i < |users| && postsOf(users[i].id).Some? && p in postsOf(users[i].id).value
              ==> TaggedPost(p, users[i].name) in AllPosts(users, postsOf).value
    decreases |users|
  {
    if users != [] {
      var front := users[..|users| - 1];
      var last := users[|users| - 1];
      AllPostsComplete(front, postsOf);
      var acc := AllPosts(front, postsOf).value;
      var posts := postsOf(last.id).value;
      var all := AllPosts(users, postsOf).value;
      assert all == acc + TagPosts(posts, last.name);
      forall i, p | 0 <= i < |users| && postsOf(users[i].id).Some? && p in postsOf(users[i].id).value
        ensures TaggedPost(p, users[i].name) in all
      {
        if i < |front| {
          assert users[i] == front[i];
          assert TaggedPost(p, users[i].name) in acc;
        } else {
          var j :| 0 <= j < |posts| && posts[j] == p;
          assert all[|acc| + j] == TaggedPost(p, last.name);
        }
      }
    }
  }

  /** `fetchAllPosts`: ask for the users, then for each user in turn ask for
    * its posts and append them, tagged, to `allPosts`. Any failure on the
    * way throws "Failed to fetch posts" and no partial list is returned. */
  method FetchAllPosts(users: Option<seq<User>>, postsOf: UserId -> Option<seq<Post>>)
    returns (r: Result<seq<TaggedPost>, string>)
    ensures r.Ok? <==> users.Some? && AllPosts(users.value, postsOf).Some?
    ensures r.Ok? ==> r.value == AllPosts(users.value, postsOf).value
    ensures r.Err? ==> r.error == FetchPostsError
  {
    if users.None? {
      return Err(FetchPostsError);
    }
    var us := users.value;
    var allPosts: seq<TaggedPost> := [];
    for i := 0 to |us|
      invariant AllPosts(us[..i], postsOf) == Some(allPosts)
    {
      var userPosts := postsOf(us[i].id);
      if userPosts.None? {
        return Err(FetchPostsError);
      }
      assert us[..i + 1][..i] == us[..i];
      allPosts := allPosts + TagPosts(userPosts.value, us[i].name);
    }
    assert us[..|us|] == us;
    return Ok(allPosts);
  }

  // ---------------------------------------------------------------------
  // fetchPostComments and the comment-count map
  // ---------------------------------------------------------------------

  /** `fetchPostComments`: the number of comments, or 0 when the request
    * throws. */
  function CommentCount(comments: Option<seq<Comment>>): (count: nat)
    ensures comments.Some? ==> count == |comments.value|
    ensures comments.None? ==> count == 0
  {
    match comments
    case Some(cs) => |cs|
    case None => 0
  }

  /** `allPosts.map(async post => ({ ...post, commentCount }))`, awaited as a
    * whole: same length and order, each post unchanged apart from its
    * added count. */
  function WithCommentCounts(posts: seq<TaggedPost>, commentsOf: PostId -> Option<seq<Comment>>)
    : (counted: seq<CountedPost>)
    ensures |counted| == |posts|
    ensures forall k :: 0 <= k < |counted| ==>
              counted[k].tagged == posts[k]
              && counted[k].commentCount == CommentCount(commentsOf(posts[k].post.id))
  {
    seq(|posts|, k requires 0 <= k < |posts| => CountedPost(posts[k], CommentCount(commentsOf(posts[k].post.id))))
  }

  // ---------------------------------------------------------------------
  // Maximum and filter
  // ---------------------------------------------------------------------

  /** The posts whose count is `c`, in their original order
    * (`filter(post => post.commentCount === c)`): a sublist in which every
    * post has count `c`. */
  function WithCount(posts: seq<CountedPost>, c: nat): (kept: seq<CountedPost>)
    ensures |kept| <= |posts|
    ensures forall k :: 0 <= k < |kept| ==> kept[k].commentCount == c
  {
    if posts == [] then []
    else (if posts[0].commentCount == c then [posts[0]] else []) + WithCount(posts[1..], c)
  }

  /** The largest comment count among `posts`, 0 when there are none: it
    * bounds every count, and some post reaches it when there is a post. */
  function MaxCount(posts: seq<CountedPost>): (m: nat)
    ensures forall k :: 0 <= k < |posts| ==> posts[k].commentCount <= m
    ensures posts == [] ==> m == 0
    ensures posts != [] ==> exists k :: 0 <= k < |posts| && posts[k].commentCount == m
  {
    if posts == [] then 0
    else
      var rest := MaxCount(posts[1..]);
      assert forall k :: 0 < k < |posts| ==> posts[k] == posts[1..][k - 1];
      if posts[0].commentCount >= rest then posts[0].commentCount
      else
        assert exists k :: 1 <= k < |posts| && posts[k].commentCount == rest by {
          var j :| 0 <= j < |posts[1..]| && posts[1..][j].commentCount == rest;
          assert posts[j + 1].commentCount == rest;
        }
        rest
  }

  /** The trending posts: those whose count is the largest count. Each has
    * that count, which no post exceeds. */
  function Trending(posts: seq<CountedPost>): (trending: seq<CountedPost>)
    ensures forall k :: 0 <= k < |trending| ==> trending[k].commentCount == MaxCount(posts)
    ensures forall k, l :: 0 <= k < |trending| && 0 <= l < |posts| ==>
              posts[l].commentCount <= trending[k].commentCount
  {
    WithCount(posts, MaxCount(posts))
  }

  /** A value that bounds every count and is reached by some post is the
    * maximum. */
  lemma MaxCountUnique(posts: seq<CountedPost>, m: nat)
    requires forall k :: 0 <= k < |posts| ==> posts[k].commentCount <= m
    requires exists k :: 0 <= k < |posts| && posts[k].commentCount == m
    ensures MaxCount(posts) == m
  {
  }

  /** Filtering keeps each post with count `c` as often as it occurs and
    * drops every other post. */
  lemma {:induction false} WithCountMultiplicity(posts: seq<CountedPost>, c: nat, x: CountedPost)
    ensures multiset(WithCount(posts, c))[x] == if x.commentCount == c then multiset(posts)[x] else 0
  {
    if posts != [] {
      WithCountMultiplicity(posts[1..], c, x);
      assert posts == [posts[0]] + posts[1..];
    }
  }

  /** Filtering distributes over concatenation. */
  lemma {:induction false} WithCountAppend(s: seq<CountedPost>, t: seq<CountedPost>, c: nat)
    ensures WithCount(s + t, c) == WithCount(s, c) + WithCount(t, c)
  {
    if s == [] {
      assert s + t == t;
    } else {
      assert (s + t)[0] == s[0];
      assert (s + t)[1..] == s[1..] + t;
      WithCountAppend(s[1..], t, c);
    }
  }

  /** The trending posts are exactly the posts whose count is the maximum. */
  lemma TrendingExactly(posts: seq<CountedPost>, x: CountedPost)
    ensures x in Trending(posts) <==> x in posts && x.commentCount == MaxCount(posts)
  {
    WithCountMultiplicity(posts, MaxCount(posts), x);
    assert x in Trending(posts) <==> multiset(Trending(posts))[x] > 0;
  }

  /** Filtering adds nothing and duplicates nothing: each trending post
    * occurs exactly as often as it does among all posts, and every other
    * post not at all. */
  lemma TrendingIsSubMultiset(posts: seq<CountedPost>)
    ensures multiset(Trending(posts)) <= multiset(posts)
    ensures forall x: CountedPost :: x.commentCount == MaxCount(posts) ==>
              multiset(Trending(posts))[x] == multiset(posts)[x]
  {
    forall x: CountedPost ensures multiset(Trending(posts))[x] == if x.commentCount == MaxCount(posts) then multiset(posts)[x] else 0 {
      WithCountMultiplicity(posts, MaxCount(posts), x);
    }
  }

  /** There is no trending post exactly when there is no post at all. */
  lemma TrendingEmptyIff(posts: seq<CountedPost>)
    ensures Trending(posts) == [] <==> posts == []
  {
    if posts != [] {
      var k :| 0 <= k < |posts| && posts[k].commentCount == MaxCount(posts);
      TrendingExactly(posts, posts[k]);
    }
  }

  // ---------------------------------------------------------------------
  // The in-place sort
  // ---------------------------------------------------------------------

  /** Non-increasing comment counts. */
  predicate DescendingByCount(s: seq<CountedPost>)
  {
    forall k, l :: 0 <= k < l < |s| ==> s[k].commentCount >= s[l].commentCount
  }

  /** `s` and `t` hold, for every count, the same posts in the same order:
    * `t` is a stable reordering of `s` by count. */
  ghost predicate SameCountClasses(s: seq<CountedPost>, t: seq<CountedPost>)
  {
    forall c: nat :: WithCount(s, c) == WithCount(t, c)
  }

  /** Swapping two neighbours with different counts is a stable reordering. */
  lemma SwapKeepsCountClasses(s: seq<CountedPost>, j: nat)
    requires j + 1 < |s| && s[j].commentCount != s[j + 1].commentCount
    ensures SameCountClasses(s[j := s[j + 1]][j + 1 := s[j]], s)
  {
    var t := s[j := s[j + 1]][j + 1 := s[j]];
    assert s == s[..j] + ([s[j], s[j + 1]] + s[j + 2..]);
    assert t == s[..j] + ([s[j + 1], s[j]] + s[j + 2..]);
    forall c: nat ensures WithCount(t, c) == WithCount(s, c) {
      WithCountAppend(s[..j], [s[j], s[j + 1]] + s[j + 2..], c);
      WithCountAppend(s[..j], [s[j + 1], s[j]] + s[j + 2..], c);
      WithCountAppend([s[j], s[j + 1]], s[j + 2..], c);
      WithCountAppend([s[j + 1], s[j]], s[j + 2..], c);
      assert [s[j], s[j + 1]][1..] == [s[j + 1]];
      assert [s[j + 1], s[j]][1..] == [s[j]];
    }
  }

  /** A stable reordering is a permutation. */
  lemma SameCountClassesPermutation(s: seq<CountedPost>, t: seq<CountedPost>)
    requires SameCountClasses(s, t)
    ensures multiset(s) == multiset(t)
  {
    forall x: CountedPost ensures multiset(s)[x] == multiset(t)[x] {
      WithCountMultiplicity(s, x.commentCount, x);
      WithCountMultiplicity(t, x.commentCount, x);
      assert WithCount(s, x.commentCount) == WithCount(t, x.commentCount);
    }
  }

  /** `postsWithComments.sort((a, b) => b.commentCount - a.commentCount)`:
    * an in-place stable sort into non-increasing count order. Insertion
    * sort swaps only neighbours whose counts differ, which keeps it stable
    * as JavaScript's `Array.prototype.sort` is. */
  method SortByCountDescending(a: array<CountedPost>)
    modifies a
    ensures DescendingByCount(a[..])
    ensures SameCountClasses(a[..], old(a[..]))
  {
    for i := 0 to a.Length
      invariant forall k, l :: 0 <= k < l < i ==> a[k].commentCount >= a[l].commentCount
      invariant SameCountClasses(a[..], old(a[..]))
    {
      var j := i;
      while j > 0 && a[j - 1].commentCount < a[j].commentCount
        invariant 0 <= j <= i
        invariant forall k, l :: 0 <= k < l <= i && k != j && l != j ==> a[k].commentCount >= a[l].commentCount
        invariant forall l :: j < l <= i ==> a[j].commentCount > a[l].commentCount
        invariant SameCountClasses(a[..], old(a[..]))
      {
        ghost var before := a[..];
        a[j - 1], a[j] := a[j], a[j - 1];
        assert a[..] == before[j - 1 := before[j]][j := before[j - 1]];
        SwapKeepsCountClasses(before, j - 1);
        j := j - 1;
      }
    }
  }

  /** After a stable descending sort, the first post's count is the maximum
    * of the unsorted list. */
  lemma SortedHeadIsMax(sorted: seq<CountedPost>, posts: seq<CountedPost>)
    requires DescendingByCount(sorted) && SameCountClasses(sorted, posts)
    requires sorted != []
    ensures MaxCount(posts) == sorted[0].commentCount
  {
    SameCountClassesPermutation(sorted, posts);
    assert sorted[0] in multiset(sorted);
    forall k | 0 <= k < |posts| ensures posts[k].commentCount <= sorted[0].commentCount {
      assert posts[k] in multiset(posts);
      var l :| 0 <= l < |sorted| && sorted[l] == posts[k];
    }
    var k0 :| 0 <= k0 < |posts| && posts[k0] == sorted[0];
    MaxCountUnique(posts, sorted[0].commentCount);
  }

  // ---------------------------------------------------------------------
  // fetchTrendingPosts
  // ---------------------------------------------------------------------

  /** `fetchTrendingPosts`: gather the posts, count their comments, sort by
    * count, take the first count as the maximum (0 for no posts) and keep
    * the posts with that count. Because the sort is stable the result lists
    * them in gathering order. A failed gathering becomes the error shown to
    * the user. */
  method FetchTrendingPosts(users: Option<seq<User>>, postsOf: UserId -> Option<seq<Post>>,
                            commentsOf: PostId -> Option<seq<Comment>>)
    returns (r: Result<seq<CountedPost>, string>)
    ensures r.Ok? <==> users.Some? && AllPosts(users.value, postsOf).Some?
    ensures r.Ok? ==> r.value == Trending(WithCommentCounts(AllPosts(users.value, postsOf).value, commentsOf))
    ensures r.Err? ==> r.error == TrendingError
  {
    var allPosts := FetchAllPosts(users, postsOf);
    if allPosts.Err? {
      return Err(TrendingError);
    }
    var counted := WithCommentCounts(allPosts.value, commentsOf);
    var sortedPosts := new CountedPost[|counted|](k requires 0 <= k < |counted| => counted[k]);
    assert sortedPosts[..] == counted;
    SortByCountDescending(sortedPosts);
    var maxComments := if sortedPosts.Length > 0 then sortedPosts[0].commentCount else 0;
    if sortedPosts.Length > 0 {
      SortedHeadIsMax(sortedPosts[..], counted);
    }
    assert maxComments == MaxCount(counted);
    r := Ok(WithCount(sortedPosts[..], maxComments));
  }
}
