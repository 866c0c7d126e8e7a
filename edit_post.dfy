/** `EditPostPage`: loads a post into the draft, then submits it as `PUT /posts/:id`. */
module EditPost {
  import opened Wrappers
  import opened Ui
  import opened PostForm
  import opened Posts
  import Api
  import Routing

  const LoadFailed := "Failed to load post"
  const Updated := "Post updated successfully!"
  const UpdateFailed := "Failed to update post"

  /** What the page renders: the loading text, or the form over the draft. */
  datatype EditView = LoadingPost | Form(title: string, content: string, titleError: Option<string>, submitEnabled: bool)

  class EditPostPage {
    /** The `:id` route parameter. */
    const id: string
    const api: Api.Client
    var title: string
    var content: string
    var titleError: Option<string>
    var loading: bool
    var isSubmitting: bool
    var toast: Option<Toast>
    var navigations: seq<string>

    constructor (id: string, api: Api.Client)
      ensures this.id == id && this.api == api
      ensures title == "" && content == "" && titleError.None? && loading && !isSubmitting
      ensures toast.None? && navigations == []
    {
      this.id, this.api := id, api;
      title, content, titleError := "", "", None;
      loading, isSubmitting, toast, navigations := true, false, None, [];
    }

    /**
     * The mount effect: `GET /posts/:id`. Success seeds the draft with the
     * post's title and content; failure leaves for `/`. Loading ends either way.
     */
    method Load(response: Response<Post>)
      modifies this, api
      ensures !loading && isSubmitting == old(isSubmitting) && titleError == old(titleError)
      ensures api.headers == old(api.headers)
      ensures api.sent == old(api.sent) + [Api.Request(Api.GET, Routing.PostPath(id), Api.NoBody, Api.Authorization(old(api.headers)))]
      ensures response.Ok? ==>
        && title == response.data.title && content == response.data.content
        && navigations == old(navigations) && toast == old(toast)
      ensures response.Err? ==>
        && title == old(title) && content == old(content)
        && navigations == old(navigations) + [Routing.HomePath] && toast == Some(ErrorToast(LoadFailed))
    {
      api.Send(Api.GET, Routing.PostPath(id), Api.NoBody);
      match response {
        case Ok(post) =>
          title := post.title;
          content := post.content;
        case Err(_) =>
          toast := Some(ErrorToast(LoadFailed));
          navigations := navigations + [Routing.HomePath];
      }
      loading := false;
    }

    method SetTitle(t: string)
      modifies this`title
      ensures title == t
    {
      title := t;
    }

    method SetContent(c: string)
      modifies this`content
      ensures content == c
    {
      content := c;
    }

    /** The Cancel button goes back to the post without sending anything. */
    method Cancel()
      modifies this`navigations
      ensures navigations == old(navigations) + [Routing.PostPath(id)]
    {
      navigations := navigations + [Routing.PostPath(id)];
    }

    /**
     * The form appears only once loading is over, with the title's schema
     * message under its input; its button is disabled while submitting.
     */
    function View(): (v: EditView)
      reads this
      ensures loading <==> v.LoadingPost?
      ensures v.Form? ==>
        && v.title == title && v.content == content && v.titleError == titleError
        && (v.submitEnabled <==> !isSubmitting)
    {
      if loading then LoadingPost else Form(title, content, titleError, !isSubmitting)
    }

    /**
     * Pressing submit. There is no button while loading and a disabled one
     * while submitting; a press then does nothing. The draft is never changed here.
     */
    method ClickSubmit()
      modifies this, api
      ensures title == old(title) && content == old(content) && navigations == old(navigations)
      ensures loading == old(loading) && api.headers == old(api.headers)
      ensures old(loading) || old(isSubmitting) ==>
        && isSubmitting == old(isSubmitting) && titleError == old(titleError) && toast == old(toast)
        && api.sent == old(api.sent)
      ensures !old(loading) && !old(isSubmitting) ==>
        match Decide(title, content)
        case RejectTitle(message) =>
          titleError == Some(message) && !isSubmitting && toast == old(toast) && api.sent == old(api.sent)
        case RejectContent =>
          titleError.None? && !isSubmitting && toast == Some(ErrorToast(ContentRequired)) && api.sent == old(api.sent)
        case Send(t, c) =>
          && titleError.None? && isSubmitting && toast == old(toast)
          && api.sent == old(api.sent) + [Api.Request(Api.PUT, Routing.PostPath(id), Api.PostFields(t, c), Api.Authorization(old(api.headers)))]
    {
      if loading || isSubmitting {
        return;
      }
      var decision := Decide(title, content);
      match decision {
        case RejectTitle(message) =>
          titleError := Some(message);
        case RejectContent =>
          titleError := None;
          toast := Some(ErrorToast(ContentRequired));
        case Send(t, c) =>
          titleError := None;
          isSubmitting := true;
          api.Send(Api.PUT, Routing.PostPath(id), Api.PostFields(t, c));
      }
    }

    /** The pending update settles. Only success navigates, to the post; the draft is kept either way. */
    method Settle(response: Response<()>)
      requires isSubmitting
      modifies this
      ensures !isSubmitting && loading == old(loading)
      ensures title == old(title) && content == old(content) && titleError == old(titleError)
      ensures response.Ok? ==>
        navigations == old(navigations) + [Routing.PostPath(id)] && toast == Some(SuccessToast(Updated))
      ensures response.Err? ==>
        navigations == old(navigations) && toast == Some(ErrorToast(UpdateFailed))
    {
      match response {
        case Ok(_) =>
          toast := Some(SuccessToast(Updated));
          navigations := navigations + [Routing.PostPath(id)];
        case Err(_) =>
          toast := Some(ErrorToast(UpdateFailed));
      }
      isSubmitting := false;
    }
  }
}
