/**
 * `HomePage`: fetches all posts once, then shows those whose title or content
 * contains the search term, ignoring case, in their original order.
 */
module Home {
  import opened Wrappers
  import opened Posts
  import Text
  import Api

  const PostsPath := "/posts"

  /** The predicate handed to `posts.filter`. */
  function Matches(post: Post, term: string): (b: bool)
    ensures term == "" ==> b
    ensures b ==> |term| <= |post.title| || |term| <= |post.content|
  {
    Text.Contains(Text.Lower(post.title), Text.Lower(term))
    || Text.Contains(Text.Lower(post.content), Text.Lower(term))
  }

  /** `filteredPosts` */
  function Filter(posts: seq<Post>, term: string): (r: seq<Post>)
    ensures |r| <= |posts|
    ensures forall p :: p in r ==> p in posts && Matches(p, term)
    ensures forall p :: p in posts && Matches(p, term) ==> p in r
  {
    if posts == [] then []
    else
      var rest := Filter(posts[1..], term);
      if Matches(posts[0], term) then [posts[0]] + rest else rest
  }

  /** `xs` is `ys` with some elements left out, the rest kept in order. */
  predicate IsSubsequence<T(==)>(xs: seq<T>, ys: seq<T>)
    decreases |ys|
  {
    if ys == [] then xs == []
    else (xs != [] && xs[0] == ys[0] && IsSubsequence(xs[1..], ys[1..])) || IsSubsequence(xs, ys[1..])
  }

  /** The filter keeps the original order. */
  lemma {:induction false} FilterIsSubsequence(posts: seq<Post>, term: string)
    ensures IsSubsequence(Filter(posts, term), posts)
  {
    if posts != [] {
      FilterIsSubsequence(posts[1..], term);
      var r := Filter(posts, term);
      if Matches(posts[0], term) {
        assert r[0] == posts[0] && r[1..] == Filter(posts[1..], term);
      }
    }
  }

  /** Filtering a concatenation filters each part: every matching copy is kept, in place. */
  lemma {:induction false} FilterAppend(xs: seq<Post>, ys: seq<Post>, term: string)
    ensures Filter(xs + ys, term) == Filter(xs, term) + Filter(ys, term)
  {
    if xs == [] {
      assert xs + ys == ys;
    } else {
      assert (xs + ys)[1..] == xs[1..] + ys;
      FilterAppend(xs[1..], ys, term);
    }
  }

  /** A list whose every post matches passes the filter unchanged. */
  lemma {:induction false} FilterKeepsMatching(posts: seq<Post>, term: string)
    requires forall p :: p in posts ==> Matches(p, term)
    ensures Filter(posts, term) == posts
  {
    if posts != [] {
      assert forall p :: p in posts[1..] ==> p in posts;
      FilterKeepsMatching(posts[1..], term);
      assert [posts[0]] + posts[1..] == posts;
    }
  }

  /** An empty search shows every post, in order. */
  lemma FilterEmptyTerm(posts: seq<Post>)
    ensures Filter(posts, "") == posts
  {
    FilterKeepsMatching(posts, "");
  }

  /** Filtering the filtered list again with the same term changes nothing. */
  lemma FilterIdempotent(posts: seq<Post>, term: string)
    ensures Filter(Filter(posts, term), term) == Filter(posts, term)
  {
    FilterKeepsMatching(Filter(posts, term), term);
  }

  /** Terms that differ only in the case of their letters select the same posts. */
  lemma {:induction false} FilterIgnoresTermCase(posts: seq<Post>, t1: string, t2: string)
    requires Text.Lower(t1) == Text.Lower(t2)
    ensures Filter(posts, t1) == Filter(posts, t2)
  {
    if posts != [] {
      FilterIgnoresTermCase(posts[1..], t1, t2);
    }
  }

  /** Searching with a term selects the same posts as searching with its lower-case form. */
  lemma FilterLowerTerm(posts: seq<Post>, term: string)
    ensures Filter(posts, term) == Filter(posts, Text.Lower(term))
  {
    Text.LowerIdempotent(term);
    FilterIgnoresTermCase(posts, term, Text.Lower(term));
  }

  /** A post is kept exactly when its title or its content contains the term somewhere, ignoring case. */
  lemma FilterKeepsExactlyOccurrences(posts: seq<Post>, term: string, p: Post)
    requires p in posts
    ensures p in Filter(posts, term) <==>
      (exists i :: Text.OccursAt(Text.Lower(p.title), Text.Lower(term), i))
      || (exists i :: Text.OccursAt(Text.Lower(p.content), Text.Lower(term), i))
  {
    Text.ContainsIff(Text.Lower(p.title), Text.Lower(term));
    Text.ContainsIff(Text.Lower(p.content), Text.Lower(term));
  }

  /**
   * Posts titled "Alpha" and "Beta" with bodies "foo" and "bar": searching
   * "ALPHA" keeps only the first, searching "" keeps both in order.
   */
  lemma AlphaBetaExample(alpha: Post, beta: Post)
    requires alpha.title == "Alpha" && alpha.content == "foo"
    requires beta.title == "Beta" && beta.content == "bar"
    ensures Filter([alpha, beta], "ALPHA") == [alpha]
    ensures Filter([alpha, beta], "") == [alpha, beta]
  {
    var term := Text.Lower("ALPHA");
    assert term == "alpha";
    assert Text.Lower("Alpha") == "alpha";
    assert Text.StartsWith("alpha", term);
    assert Matches(alpha, "ALPHA");
    assert !Matches(beta, "ALPHA");
    assert [alpha, beta][1..] == [beta];
    assert [beta][1..] == [];
    FilterEmptyTerm([alpha, beta]);
  }

  /** What the page renders. */
  datatype HomeView = LoadingPosts | NoPostsFound | Cards(posts: seq<Post>)

  class HomePage {
    const api: Api.Client
    var posts: seq<Post>
    var loading: bool
    var searchTerm: string

    constructor (api: Api.Client)
      ensures this.api == api && posts == [] && loading && searchTerm == ""
    {
      this.api := api;
      posts, loading, searchTerm := [], true, "";
    }

    /** The mount effect: `GET /posts`; on failure the list stays as it was. Loading ends either way. */
    method Load(response: Response<seq<Post>>)
      modifies this, api
      ensures !loading && searchTerm == old(searchTerm)
      ensures posts == if response.Ok? then response.data else old(posts)
      ensures api.headers == old(api.headers)
      ensures api.sent == old(api.sent) + [Api.Request(Api.GET, PostsPath, Api.NoBody, Api.Authorization(old(api.headers)))]
    {
      api.Send(Api.GET, PostsPath, Api.NoBody);
      if response.Ok? {
        posts := response.data;
      }
      loading := false;
    }

    /** Typing in the search box. */
    method SetSearchTerm(term: string)
      modifies this`searchTerm
      ensures searchTerm == term
    {
      searchTerm := term;
    }

    function View(): (v: HomeView)
      reads this
      ensures loading <==> v.LoadingPosts?
      ensures !loading ==> (v.NoPostsFound? <==> Filter(posts, searchTerm) == [])
      ensures v.Cards? ==> v.posts == Filter(posts, searchTerm) && v.posts != []
    {
      if loading then LoadingPosts
      else
        var shown := Filter(posts, searchTerm);
        if |shown| == 0 then NoPostsFound else Cards(shown)
    }
  }

  /** Mounting the page and failing the fetch shows the empty-result message, whatever is then searched. */
  method FailedFetchShowsNoPosts(api: Api.Client, failure: Option<string>, term: string)
    returns (v: HomeView)
    modifies api
    ensures v == NoPostsFound
  {
    var page := new HomePage(api);
    page.Load(Err(failure));
    page.SetSearchTerm(term);
    v := page.View();
  }
}
