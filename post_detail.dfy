/**
 * `PostDetailPage`: fetches one post, shows it, and offers its author the
 * edit link and a delete button guarded by a confirmation.
 */
module PostDetail {
  import opened Wrappers
  import opened Ui
  import opened Posts
  import Api
  import Auth
  import Routing

  const LoadFailed := "Failed to load post"
  const Deleted := "Post deleted successfully"
  const DeleteFailed := "Failed to delete post"

  /** The session user owns the post: compared against `authorId`, not against the nested author. */
  function IsAuthor(user: Option<Auth.User>, post: Post): (b: bool)
    ensures user.None? ==> !b
    ensures user.Some? ==> (b <==> user.value.id == post.authorId)
  {
    user.Some? && user.value.id == post.authorId
  }

  /** Ownership is decided by `authorId` alone; the nested author record plays no part. */
  lemma IsAuthorIgnoresAuthorRecord(user: Option<Auth.User>, post: Post, author: Posts.Author)
    ensures IsAuthor(user, post) <==> IsAuthor(user, post.(author := author))
  {
  }

  /** The author's controls: the edit link and the delete button. */
  datatype Controls = Controls(editLink: string, deleteEnabled: bool)

  /** Exactly one of three views. */
  datatype DetailView = LoadingPost | PostNotFound | PostView(post: Post, controls: Option<Controls>)

  class PostDetailPage {
    /** The `:id` route parameter. */
    const id: string
    const api: Api.Client
    var post: Option<Post>
    var loading: bool
    var deleting: bool
    var toast: Option<Toast>
    var navigations: seq<string>

    constructor (id: string, api: Api.Client)
      ensures this.id == id && this.api == api
      ensures post.None? && loading && !deleting && toast.None? && navigations == []
    {
      this.id, this.api := id, api;
      post, loading, deleting, toast, navigations := None, true, false, None, [];
    }

    /** The mount effect: `GET /posts/:id`. A failure keeps the post absent. Loading ends either way. */
    method Load(response: Response<Post>)
      modifies this, api
      ensures !loading && deleting == old(deleting) && navigations == old(navigations)
      ensures api.headers == old(api.headers)
      ensures api.sent == old(api.sent) + [Api.Request(Api.GET, Routing.PostPath(id), Api.NoBody, Api.Authorization(old(api.headers)))]
      ensures response.Ok? ==> post == Some(response.data) && toast == old(toast)
      ensures response.Err? ==> post == old(post) && toast == Some(ErrorToast(LoadFailed))
    {
      api.Send(Api.GET, Routing.PostPath(id), Api.NoBody);
      match response {
        case Ok(p) =>
          post := Some(p);
        case Err(_) =>
          toast := Some(ErrorToast(LoadFailed));
      }
      loading := false;
    }

    /** What the page renders for the session's `user`. */
    function View(user: Option<Auth.User>): (v: DetailView)
      reads this
      ensures loading <==> v.LoadingPost?
      ensures v.PostNotFound? <==> !loading && post.None?
      ensures v.PostView? <==> !loading && post.Some?
      ensures v.PostView? ==> v.post == post.value
      ensures v.PostView? ==> (v.controls.Some? <==> IsAuthor(user, v.post))
      ensures v.PostView? && v.controls.Some? ==>
        v.controls.value.editLink == Routing.EditPath(v.post.id) && (v.controls.value.deleteEnabled <==> !deleting)
    {
      if loading then LoadingPost
      else if post.None? then PostNotFound
      else
        var p := post.value;
        PostView(p, if IsAuthor(user, p) then Some(Controls(Routing.EditPath(p.id), !deleting)) else None)
    }

    /**
     * Pressing delete; `confirmed` is the answer to the confirmation dialog.
     * Declining changes nothing; confirming issues one `DELETE /posts/:id`.
     * A press on the disabled button does nothing. The page renders the
     * button only for a loaded post whose author is the session user; the
     * method itself accepts a press in any state.
     */
    method ClickDelete(confirmed: bool)
      modifies this, api
      ensures post == old(post) && loading == old(loading) && toast == old(toast) && navigations == old(navigations)
      ensures api.headers == old(api.headers)
      ensures old(deleting) || !confirmed ==> deleting == old(deleting) && api.sent == old(api.sent)
      ensures !old(deleting) && confirmed ==>
        && deleting
        && api.sent == old(api.sent) + [Api.Request(Api.DELETE, Routing.PostPath(id), Api.NoBody, Api.Authorization(old(api.headers)))]
    {
      if deleting || !confirmed {
        return;
      }
      deleting := true;
      api.Send(Api.DELETE, Routing.PostPath(id), Api.NoBody);
    }

    /** The pending delete settles. Only success navigates to `/`; a failure keeps the post shown. */
    method SettleDelete(response: Response<()>)
      requires deleting
      modifies this
      ensures !deleting && post == old(post) && loading == old(loading)
      ensures response.Ok? ==>
        navigations == old(navigations) + [Routing.HomePath] && toast == Some(SuccessToast(Deleted))
      ensures response.Err? ==>
        navigations == old(navigations) && toast == Some(ErrorToast(DeleteFailed))
    {
      match response {
        case Ok(_) =>
          toast := Some(SuccessToast(Deleted));
          navigations := navigations + [Routing.HomePath];
        case Err(_) =>
          toast := Some(ErrorToast(DeleteFailed));
      }
      deleting := false;
    }
  }

  /** A post fetched for a different user never shows the author's controls. */
  lemma OthersSeeNoControls(page: PostDetailPage, user: Auth.User)
    requires !page.loading && page.post.Some? && user.id != page.post.value.authorId
    ensures page.View(Some(user)) == PostView(page.post.value, None)
  {
  }

  /** Mounting the page and failing the fetch ends in the "Post not found" view, for any session. */
  method FailedFetchShowsNotFound(id: string, api: Api.Client, user: Option<Auth.User>, failure: Option<string>)
    returns (v: DetailView)
    modifies api
    ensures v == PostNotFound
  {
    var page := new PostDetailPage(id, api);
    page.Load(Err(failure));
    v := page.View(user);
  }
}
