/** `CreatePostPage`: a title and content draft submitted as `POST /posts`. */
module CreatePost {
  import opened Wrappers
  import opened Ui
  import opened PostForm
  import Api
  import Routing

  const CreatePath := "/posts"
  const Created := "Post created successfully!"
  const CreateFailed := "Failed to create post"

  class CreatePostPage {
    const api: Api.Client
    /** The title input, held by the form library. */
    var title: string
    /** The editor's HTML. */
    var content: string
    /** The inline message under the title input. */
    var titleError: Option<string>
    var isSubmitting: bool
    var toast: Option<Toast>
    /** The paths this page navigated to, in order. */
    var navigations: seq<string>

    constructor (api: Api.Client)
      ensures this.api == api && title == "" && content == "" && titleError.None?
      ensures !isSubmitting && toast.None? && navigations == []
    {
      this.api := api;
      title, content, titleError := "", "", None;
      isSubmitting, toast, navigations := false, None, [];
    }

    method SetTitle(t: string)
      modifies this`title
      ensures title == t
    {
      title := t;
    }

    method SetContent(c: string)
      modifies this`content
      ensures content == c
    {
      content := c;
    }

    /** The Cancel button goes back to the list without sending anything. */
    method Cancel()
      modifies this`navigations
      ensures navigations == old(navigations) + [Routing.HomePath]
    {
      navigations := navigations + [Routing.HomePath];
    }

    /** The submit button is disabled while a request is pending. */
    function SubmitEnabled(): (b: bool)
      reads this
      ensures b <==> !isSubmitting
    {
      !isSubmitting
    }

    /**
     * Pressing submit: validation, then the request. A press on the disabled
     * button does nothing. The draft is never changed here.
     */
    method ClickSubmit()
      modifies this, api
      ensures title == old(title) && content == old(content) && navigations == old(navigations)
      ensures api.headers == old(api.headers)
      ensures old(isSubmitting) ==>
        && isSubmitting && titleError == old(titleError) && toast == old(toast) && api.sent == old(api.sent)
      ensures !old(isSubmitting) ==>
        match Decide(title, content)
        case RejectTitle(message) =>
          titleError == Some(message) && !isSubmitting && toast == old(toast) && api.sent == old(api.sent)
        case RejectContent =>
          titleError.None? && !isSubmitting && toast == Some(ErrorToast(ContentRequired)) && api.sent == old(api.sent)
        case Send(t, c) =>
          && titleError.None? && isSubmitting && toast == old(toast)
          && api.sent == old(api.sent) + [Api.Request(Api.POST, CreatePath, Api.PostFields(t, c), Api.Authorization(old(api.headers)))]
    {
      if isSubmitting {
        return;
      }
      var decision := Decide(title, content);
      match decision {
        case RejectTitle(message) =>
          titleError := Some(message);
        case RejectContent =>
          titleError := None;
          toast := Some(ErrorToast(ContentRequired));
        case Send(t, c) =>
          titleError := None;
          isSubmitting := true;
          api.Send(Api.POST, CreatePath, Api.PostFields(t, c));
      }
    }

    /**
     * The pending create settles with the new post's id, or fails. Only success
     * navigates; either way the draft is kept and submitting ends.
     */
    method Settle(response: Response<string>)
      requires isSubmitting
      modifies this
      ensures !isSubmitting
      ensures title == old(title) && content == old(content) && titleError == old(titleError)
      ensures response.Ok? ==>
        navigations == old(navigations) + [Routing.PostPath(response.data)] && toast == Some(SuccessToast(Created))
      ensures response.Err? ==>
        navigations == old(navigations) && toast == Some(ErrorToast(CreateFailed))
    {
      match response {
        case Ok(id) =>
          toast := Some(SuccessToast(Created));
          navigations := navigations + [Routing.PostPath(id)];
        case Err(_) =>
          toast := Some(ErrorToast(CreateFailed));
      }
      isSubmitting := false;
    }
  }
}
