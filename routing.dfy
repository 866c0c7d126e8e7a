/**
 * Client-side routing: the route table of `App`, the `PrivateRoute` guard and
 * the path builders the pages use for their links and navigations.
 *
 * A path is matched piece by piece: after its leading '/' and without its
 * trailing slashes it is split at '/', each literal piece must be equal and an
 * `:id` piece matches any one non-empty piece.
 */
module Routing {
  import opened Wrappers
  import Auth

  /** The pages the route table can render. */
  datatype Page =
    | HomePage
    | LoginPage
    | RegisterPage
    | PostDetailPage(id: string)
    | CreatePostPage
    | EditPostPage(id: string)
    | ProfilePage

  /** What a route element produces: a page, or a `<Navigate to replace>` redirect. */
  datatype Element = Show(page: Page) | Navigate(to: string, replace: bool)

  /** What the application shows: the provider's loading text, or the routed element. */
  datatype Screen = SessionLoading | Routed(element: Element)

  const HomePath := "/"
  const LoginPath := "/login"

  /** Link to a post's detail view. */
  function PostPath(id: string): (p: string)
    ensures |p| == 7 + |id| && p[..7] == "/posts/" && p[7..] == id
  {
    "/posts/" + id
  }

  /** Link to a post's edit view. */
  function EditPath(id: string): (p: string)
    ensures |p| == 11 + |id| && p[..11] == "/edit-post/" && p[11..] == id
  {
    "/edit-post/" + id
  }

  /** The length of the piece at the head of `p`: up to the first '/' or the end. */
  function SegmentEnd(p: string): (n: nat)
    ensures n <= |p| && '/' !in p[..n]
    ensures n < |p| ==> p[n] == '/'
    ensures p != "" && p[0] != '/' ==> n > 0
  {
    if p == "" || p[0] == '/' then 0 else 1 + SegmentEnd(p[1..])
  }

  /** A slash-free string runs up to the next '/' or the end. */
  lemma {:induction false} SegmentEndOfWord(w: string, rest: string)
    requires '/' !in w
    requires rest == "" || rest[0] == '/'
    ensures SegmentEnd(w + rest) == |w|
  {
    if w != "" {
      assert (w + rest)[1..] == w[1..] + rest;
      SegmentEndOfWord(w[1..], rest);
    } else {
      assert w + rest == rest;
    }
  }

  /** Every character of `t` is '/'. */
  predicate AllSlashes(t: string)
  {
    forall k :: 0 <= k < |t| ==> t[k] == '/'
  }

  /** No piece contains '/'. */
  predicate SlashFree(pieces: seq<string>)
  {
    forall k :: 0 <= k < |pieces| ==> '/' !in pieces[k]
  }

  /** `p.split("/")`: the pieces between the slashes, empty pieces kept. */
  function Split(p: string): (r: seq<string>)
    ensures |r| >= 1
    decreases |p|
  {
    var n := SegmentEnd(p);
    if n == |p| then [p] else [p[..n]] + Split(p[n + 1..])
  }

  /** `pieces.join("/")`. */
  function Join(pieces: seq<string>): (p: string)
    requires |pieces| >= 1
  {
    if |pieces| == 1 then pieces[0] else pieces[0] + "/" + Join(pieces[1..])
  }

  /** `p` without the slashes at its end. */
  function StripTrailing(p: string): (r: string)
    ensures |r| <= |p| && r == p[..|r|]
    ensures AllSlashes(p[|r|..])
    ensures r == "" || r[|r| - 1] != '/'
  {
    if p != "" && p[|p| - 1] == '/' then
      var q := p[..|p| - 1];
      var r := StripTrailing(q);
      assert p[|r|..] == q[|r|..] + "/";
      r
    else p
  }

  /**
   * The pieces a route pattern is compared with. A pattern accepts its
   * pieces joined by '/' and followed by any run of slashes: the path must
   * begin with exactly the one '/' that precedes the first piece, slashes are
   * ignored only at the end, and a doubled slash elsewhere leaves an empty
   * piece that no pattern accepts.
   * `None` for a path that does not begin with '/'.
   */
  function Segments(path: string): (r: Option<seq<string>>)
    ensures r.None? <==> path == "" || path[0] != '/'
    ensures r.Some? && r.value != [] ==> r.value[|r.value| - 1] != ""
  {
    if path == "" || path[0] != '/' then None
    else
      var body := StripTrailing(path[1..]);
      if body == "" then Some([])
      else
        var s := Split(body);
        SplitLastNonEmpty(body);
        Some(s)
  }

  /** No piece of a split contains '/'. */
  lemma {:induction false} SplitSlashFree(p: string)
    ensures SlashFree(Split(p))
    decreases |p|
  {
    var n := SegmentEnd(p);
    if n < |p| {
      SplitSlashFree(p[n + 1..]);
      assert Split(p) == [p[..n]] + Split(p[n + 1..]);
    }
  }

  /** No piece of a path contains '/'. */
  lemma SegmentsSlashFree(path: string)
    ensures Segments(path).Some? ==> SlashFree(Segments(path).value)
  {
    if Segments(path).Some? && Segments(path).value != [] {
      SegmentsOfBody(path);
      SplitSlashFree(StripTrailing(path[1..]));
    }
  }

  /** Splitting a string that does not end in '/' leaves a non-empty last piece. */
  lemma {:induction false} SplitLastNonEmpty(p: string)
    requires p != "" && p[|p| - 1] != '/'
    ensures Split(p)[|Split(p)| - 1] != ""
  {
    var n := SegmentEnd(p);
    if n < |p| {
      var rest := p[n + 1..];
      assert rest != "" && rest[|rest| - 1] == p[|p| - 1];
      SplitLastNonEmpty(rest);
      assert Split(p) == [p[..n]] + Split(rest);
    }
  }

  /** A string with a '/' at `n` is the piece before it, the '/', and the rest. */
  lemma SplitAtSlash(p: string, n: nat)
    requires n < |p| && p[n] == '/'
    ensures p == p[..n] + "/" + p[n + 1..]
  {
    assert p == p[..n] + p[n..];
    assert p[n..] == [p[n]] + p[n + 1..];
  }

  /** Joining a piece in front of at least one more adds it and a '/'. */
  lemma JoinCons(x: string, rest: seq<string>)
    requires |rest| >= 1
    ensures Join([x] + rest) == x + "/" + Join(rest)
  {
    assert ([x] + rest)[1..] == rest;
  }

  /** Joining what was split gives the string back. */
  lemma {:induction false} JoinSplit(p: string)
    ensures Join(Split(p)) == p
    decreases |p|
  {
    var n := SegmentEnd(p);
    if n < |p| {
      var rest := p[n + 1..];
      JoinSplit(rest);
      JoinCons(p[..n], Split(rest));
      SplitAtSlash(p, n);
    }
  }

  /** Splitting what was joined from slash-free pieces gives the pieces back. */
  lemma {:induction false} SplitJoin(pieces: seq<string>)
    requires |pieces| >= 1
    requires SlashFree(pieces)
    ensures Split(Join(pieces)) == pieces
  {
    var x := pieces[0];
    assert '/' !in x;
    if |pieces| == 1 {
      SegmentEndOfWord(x, "");
      assert x + "" == x;
    } else {
      SplitCons(x, Join(pieces[1..]));
      SplitJoin(pieces[1..]);
      assert pieces == [x] + pieces[1..];
    }
  }

  /** A slash-free piece, a '/' and a rest split into that piece and the rest's pieces. */
  lemma SplitCons(x: string, rest: string)
    requires '/' !in x
    ensures Split(x + "/" + rest) == [x] + Split(rest)
  {
    var p := x + "/" + rest;
    SegmentEndOfWord(x, "/" + rest);
    assert p == x + ("/" + rest);
    assert p[..|x|] == x && p[|x| + 1..] == rest;
  }

  /** A join whose last piece is non-empty and slash-free ends in something other than '/'. */
  lemma {:induction false} JoinEnd(pieces: seq<string>)
    requires |pieces| >= 1
    requires SlashFree(pieces)
    requires pieces[|pieces| - 1] != ""
    ensures Join(pieces) != "" && Join(pieces)[|Join(pieces)| - 1] != '/'
  {
    if |pieces| > 1 {
      JoinEnd(pieces[1..]);
    } else {
      assert pieces[0][|pieces[0]| - 1] in pieces[0];
    }
  }

  /** Stripping trailing slashes from `u` followed by slashes gives `u`. */
  lemma {:induction false} StripSlashes(u: string, t: string)
    requires u == "" || u[|u| - 1] != '/'
    requires AllSlashes(t)
    ensures StripTrailing(u + t) == u
  {
    if t != "" {
      assert (u + t)[..|u + t| - 1] == u + t[..|t| - 1];
      StripSlashes(u, t[..|t| - 1]);
    } else {
      assert u + t == u;
    }
  }

  /**
   * The paths with given pieces are exactly `/` followed by the pieces joined
   * with '/' and then any run of slashes.
   */
  lemma SegmentsOfPieces(pieces: seq<string>, t: string)
    requires |pieces| >= 1 && pieces[|pieces| - 1] != ""
    requires SlashFree(pieces)
    requires AllSlashes(t)
    ensures Segments("/" + Join(pieces) + t) == Some(pieces)
  {
    var path := "/" + Join(pieces) + t;
    assert path[1..] == Join(pieces) + t;
    JoinEnd(pieces);
    StripSlashes(Join(pieces), t);
    SplitJoin(pieces);
    SegmentsOfBody(path);
  }

  /** A path built from pieces is matched on those pieces. */
  lemma MatchAt(path: string, pieces: seq<string>, t: string)
    requires |pieces| >= 1 && pieces[|pieces| - 1] != ""
    requires SlashFree(pieces) && AllSlashes(t)
    requires path == "/" + Join(pieces) + t
    ensures Match(path) == MatchPieces(pieces)
  {
    SegmentsOfPieces(pieces, t);
  }

  /** A path with a non-empty body has the pieces of that body. */
  lemma SegmentsOfBody(path: string)
    requires path != "" && path[0] == '/' && StripTrailing(path[1..]) != ""
    ensures Segments(path) == Some(Split(StripTrailing(path[1..])))
  {
  }

  /** The pieces of a path, joined with '/', give the path without its leading and trailing slashes. */
  lemma SegmentsJoin(path: string)
    requires Segments(path).Some? && Segments(path).value != []
    ensures var j := Join(Segments(path).value);
      1 + |j| <= |path| && path[..1 + |j|] == "/" + j && AllSlashes(path[1 + |j|..])
  {
    var body := StripTrailing(path[1..]);
    SegmentsOfBody(path);
    JoinSplit(body);
    assert path[..1 + |body|] == path[..1] + path[1..][..|body|];
    assert path[1 + |body|..] == path[1..][|body|..];
  }

  /** A path has no pieces exactly when it consists of slashes alone, as `/` and `//` do. */
  lemma NoPiecesIffAllSlashes(path: string)
    ensures Segments(path) == Some([]) <==> path != "" && AllSlashes(path)
  {
    if path != "" && path[0] == '/' {
      var body := StripTrailing(path[1..]);
      if body == "" {
        assert path == "/" + path[1..];
        assert forall k :: 1 <= k < |path| ==> path[k] == path[1..][k - 1];
      } else {
        assert path[1 + |body| - 1] == body[|body| - 1];
        SegmentsOfBody(path);
      }
    }
  }

  /** A path built as `/a` has the single piece `a`. */
  lemma SegmentsOne(a: string)
    requires a != "" && '/' !in a
    ensures Segments("/" + a) == Some([a])
  {
    SegmentsOfPieces([a], "");
    assert "/" + Join([a]) + "" == "/" + a;
  }

  /** `/a/b` is `/` followed by the join of `a` and `b`. */
  lemma JoinPair(a: string, b: string)
    ensures "/" + a + "/" + b == "/" + Join([a, b]) + ""
  {
    JoinCons(a, [b]);
    assert [a, b] == [a] + [b];
  }

  /** The pieces of the pattern each page is routed from; `:id` is filled with the page's id. */
  function PatternOf(p: Page): (pattern: seq<string>)
  {
    match p
    case HomePage => []
    case LoginPage => ["login"]
    case RegisterPage => ["register"]
    case PostDetailPage(id) => ["posts", id]
    case CreatePostPage => ["create-post"]
    case EditPostPage(id) => ["edit-post", id]
    case ProfilePage => ["profile"]
  }

  /** A page an `:id` pattern can produce has a non-empty id. */
  predicate WellFormed(p: Page)
  {
    (p.PostDetailPage? || p.EditPostPage?) ==> p.id != ""
  }

  /** The route patterns of the table, tried on the pieces of a path. */
  function MatchPieces(s: seq<string>): (r: Option<Page>)
    ensures r.Some? ==> PatternOf(r.value) == s && WellFormed(r.value)
    ensures forall p :: PatternOf(p) == s && WellFormed(p) ==> r == Some(p)
  {
    if |s| == 0 then Some(HomePage)
    else if |s| == 1 && s[0] == "login" then Some(LoginPage)
    else if |s| == 1 && s[0] == "register" then Some(RegisterPage)
    else if |s| == 2 && s[0] == "posts" && s[1] != "" then Some(PostDetailPage(s[1]))
    else if |s| == 1 && s[0] == "create-post" then Some(CreatePostPage)
    else if |s| == 2 && s[0] == "edit-post" && s[1] != "" then Some(EditPostPage(s[1]))
    else if |s| == 1 && s[0] == "profile" then Some(ProfilePage)
    else None
  }

  /** The page whose pattern `path` matches, if any. */
  function Match(path: string): (r: Option<Page>)
    ensures r.Some? ==> Segments(path) == Some(PatternOf(r.value)) && WellFormed(r.value)
    ensures forall p :: Segments(path) == Some(PatternOf(p)) && WellFormed(p) ==> r == Some(p)
  {
    match Segments(path)
    case None => None
    case Some(s) => MatchPieces(s)
  }

  /** The pages wrapped in `PrivateRoute`. */
  predicate Guarded(p: Page)
  {
    p.CreatePostPage? || p.EditPostPage? || p.ProfilePage?
  }

  /** `PrivateRoute`: redirect to the login view, replacing the history entry, unless authenticated. */
  function PrivateRoute(ctx: Auth.Context, children: Element): (e: Element)
    ensures !ctx.isAuthenticated ==> e == Navigate(LoginPath, true)
    ensures ctx.isAuthenticated ==> e == children
  {
    if !ctx.isAuthenticated then Navigate(LoginPath, true) else children
  }

  /** The `<Routes>` table; any path matching no pattern goes to the wildcard redirect. */
  function Route(path: string, ctx: Auth.Context): (e: Element)
    ensures Match(path).None? ==> e == Navigate(HomePath, true)
    ensures Match(path).Some? && Guarded(Match(path).value) ==> e == PrivateRoute(ctx, Show(Match(path).value))
    ensures Match(path).Some? && !Guarded(Match(path).value) ==> e == Show(Match(path).value)
  {
    match Match(path)
    case None => Navigate(HomePath, true)
    case Some(p) => if Guarded(p) then PrivateRoute(ctx, Show(p)) else Show(p)
  }

  /** `App`: the session provider encloses the router, so no route is decided while it restores. */
  function App(s: Auth.AuthState, path: string): (screen: Screen)
    ensures s.loading <==> screen.SessionLoading?
    ensures !s.loading ==> screen == Routed(Route(path, Auth.ContextOf(s)))
  {
    if s.loading then SessionLoading else Routed(Route(path, Auth.ContextOf(s)))
  }

  /** The guard reads nothing of the session but its flag. */
  lemma PrivateRouteReadsOnlyFlag(c1: Auth.Context, c2: Auth.Context, children: Element)
    requires c1.isAuthenticated == c2.isAuthenticated
    ensures PrivateRoute(c1, children) == PrivateRoute(c2, children)
  {
  }

  /** Without a session, exactly the three guarded patterns redirect to `/login`. */
  lemma GuardedPaths(path: string, ctx: Auth.Context)
    requires !ctx.isAuthenticated
    ensures Route(path, ctx) == Navigate(LoginPath, true) <==>
      Segments(path).Some? &&
      var s := Segments(path).value;
      s == ["create-post"] || (|s| == 2 && s[0] == "edit-post" && s[1] != "") || s == ["profile"]
  {
    match Segments(path)
    case None =>
    case Some(s) =>
      GuardedPieces(s);
  }

  /** The patterns behind the guard, on pieces. */
  lemma GuardedPieces(s: seq<string>)
    ensures MatchPieces(s).Some? && Guarded(MatchPieces(s).value) <==>
      s == ["create-post"] || (|s| == 2 && s[0] == "edit-post" && s[1] != "") || s == ["profile"]
  {
  }

  /** With a session, every pattern of the table renders its page. */
  lemma AuthenticatedRendersMatch(path: string, ctx: Auth.Context)
    requires ctx.isAuthenticated && Match(path).Some?
    ensures Route(path, ctx) == Show(Match(path).value)
  {
  }

  /** `/`, `/login`, `/register` and `/posts/:id` render whatever the session. */
  lemma PublicPathsRender(path: string, c1: Auth.Context, c2: Auth.Context)
    requires Match(path).Some? && !Guarded(Match(path).value)
    ensures Route(path, c1) == Route(path, c2) == Show(Match(path).value)
    ensures Match(path).value in {HomePage, LoginPage, RegisterPage} || Match(path).value.PostDetailPage?
  {
  }

  /** A path that matches no pattern is replaced by `/`. */
  lemma UnknownPathsRedirectHome(path: string, ctx: Auth.Context)
    requires Match(path).None?
    ensures Route(path, ctx) == Navigate(HomePath, true)
  {
  }

  /** Every redirect of the table lands on a page that renders: no chain of redirects. */
  lemma RedirectsSettle(path: string, ctx: Auth.Context)
    ensures Route(path, ctx).Navigate? ==> Route(path, ctx).replace && Route(Route(path, ctx).to, ctx).Show?
  {
    HomeRenders(ctx);
    LoginRenders(ctx);
  }

  lemma HomeRenders(ctx: Auth.Context)
    ensures Route(HomePath, ctx) == Show(HomePage)
  {
    assert Segments(HomePath) == Some([]);
  }

  lemma LoginRenders(ctx: Auth.Context)
    ensures Route(LoginPath, ctx) == Show(LoginPage)
  {
    SegmentsOne("login");
    assert "/" + "login" == LoginPath;
  }

  /** The link to a post opens that post's detail view, with or without a session. */
  lemma PostPathOpensPost(id: string, ctx: Auth.Context)
    requires id != "" && '/' !in id
    ensures Match(PostPath(id)) == Some(PostDetailPage(id))
    ensures Route(PostPath(id), ctx) == Show(PostDetailPage(id))
  {
    JoinPair("posts", id);
    MatchAt(PostPath(id), ["posts", id], "");
  }

  /** The edit link opens that post's edit view, behind the guard. */
  lemma EditPathOpensEditor(id: string, ctx: Auth.Context)
    requires id != "" && '/' !in id
    ensures Match(EditPath(id)) == Some(EditPostPage(id))
    ensures Route(EditPath(id), ctx) == PrivateRoute(ctx, Show(EditPostPage(id)))
  {
    JoinPair("edit-post", id);
    MatchAt(EditPath(id), ["edit-post", id], "");
  }

  /** Slashes after a path are ignored: a post's link followed by any run of slashes still opens the post. */
  lemma TrailingSlashesIgnored(id: string, t: string, ctx: Auth.Context)
    requires id != "" && '/' !in id
    requires AllSlashes(t)
    ensures Route(PostPath(id) + t, ctx) == Show(PostDetailPage(id))
  {
    SegmentsOfPieces(["posts", id], t);
    JoinCons("posts", [id]);
    assert "/" + Join(["posts", id]) + t == PostPath(id) + t;
    assert Match(PostPath(id) + t) == MatchPieces(["posts", id]);
  }

  /** A doubled slash before or between the pieces matches no pattern, so the wildcard sends it to `/`. */
  lemma DoubledSlashesRedirectHome(w: string, ctx: Auth.Context)
    requires w != "" && '/' !in w
    ensures Route("//" + w, ctx) == Navigate(HomePath, true)
    ensures Route("/posts//" + w, ctx) == Navigate(HomePath, true)
  {
    DoubledLeadingSlash(w);
    DoubledInnerSlash(w);
  }

  lemma DoubledLeadingSlash(w: string)
    requires w != "" && '/' !in w
    ensures Match("//" + w) == None
  {
    JoinEmptyFirst(w);
    MatchAt("//" + w, ["", w], "");
  }

  lemma DoubledInnerSlash(w: string)
    requires w != "" && '/' !in w
    ensures Match("/posts//" + w) == None
  {
    JoinPostsEmpty(w);
    MatchAt("/posts//" + w, ["posts", "", w], "");
  }

  lemma JoinEmptyFirst(w: string)
    ensures "//" + w == "/" + Join(["", w]) + ""
  {
    JoinCons("", [w]);
    assert ["", w] == [""] + [w];
  }

  lemma JoinPostsEmpty(w: string)
    ensures "/posts//" + w == "/" + Join(["posts", "", w]) + ""
  {
    JoinCons("", [w]);
    assert ["", w] == [""] + [w];
    JoinCons("posts", ["", w]);
    assert ["posts", "", w] == ["posts"] + ["", w];
  }

  /**
   * Reloading on any page with a stored session shows that page: the restore
   * runs before the router decides, so no guard redirects to `/login` first.
   */
  lemma ReloadKeepsPage(storage: map<string, string>, headers: map<string, string>,
                        decode: string -> Auth.User, path: string)
    requires Auth.HasStoredSession(storage) && Match(path).Some?
    ensures App(Auth.Initial(storage, headers), path) == SessionLoading
    ensures App(Auth.Restored(Auth.Initial(storage, headers), decode), path) == Routed(Show(Match(path).value))
  {
  }
}
