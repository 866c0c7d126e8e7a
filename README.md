# Blog front end: session, routing, search and forms

This project models the logic of a React single-page blog client: the session
store that keeps the signed-in user, the bearer token and the authenticated
flag in step with durable browser storage and with the HTTP client's default
`Authorization` header; the route table and its login guard; the
case-insensitive search of the home page; the content preview of a post card;
and the submit state machines of the create, edit, register and post-detail
pages.

Every backend call is abstracted. The client (`Api.Client`) records each request
it sends, with the default Authorization header that request carries. How the
request settles is an input: `Response<T>` is either `Ok(data)` or
`Err(serverMessage)`. A page with an awaited request has two steps. A click
method issues the request and marks the page busy. A `Settle` method then
applies the outcome. This keeps the "request pending" state visible, for
example `isSubmitting` being true while the submit button is disabled.

Modules, one per source file, plus four shared ones:

- `Wrappers`, `Ui`, `Text` and `Api`: option and response values, toasts, and JavaScript's
  `toLowerCase`, `trim` and `includes`. `Api` also holds the client's default
  headers and its request log.
- `Auth` (src/contexts/AuthContext.tsx): the transitions are functions on an
  `AuthState` value (`Restored`, `LoggedIn`, `LoggedOut`). The lemmas about
  them state the session invariant, the round trip through a reload and
  idempotent logout. The class `SessionStore` does the same updates step by
  step on its fields, `localStorage` and the client's headers. Each of its
  methods promises to end in the state those functions give.
- `Routing` (src/App.tsx, src/components/PrivateRoute.tsx): the route table as
  a function from path and session to a page or a redirect.
- `Posts`, `PostCard`, `Home`, `PostForm`, `CreatePost`, `EditPost`,
  `Register`, `PostDetail`: the post record and the pages.

Two behaviours of the code a reader might not expect, which the model keeps:

- A login whose access token is the empty string counts as authenticated until
  the next reload. The restore treats "" as absent
  (`Auth.EmptyTokenLostOnReload`), so "authenticated iff the token is
  non-empty" does not hold after such a login.
- The ownership check compares the session user's id with the post's
  `authorId` field, not with the nested author record.

## Model

| member | source | states |
|---|---|---|
| `Text.Lower` | src/pages/HomePage.tsx:40-41 | lower-casing keeps the length and maps each character through ASCII lower-casing |
| `Text.Trim` | src/pages/CreatePostPage.tsx:37 | the trimmed string is an infix of the input with only white space before and after it, and it neither starts nor ends with white space |
| `Text.TrimUnique` | src/pages/CreatePostPage.tsx:37 | no other infix has only white space around it and none at its ends, so `trim` removes exactly the leading and trailing white space |
| `Text.BlankIffAllSpace` | src/pages/CreatePostPage.tsx:37 | `content.trim() === ""` holds exactly when every character of the content is white space |
| `Text.IsBlank` | src/pages/CreatePostPage.tsx:37 | the empty string counts as blank (the full characterisation is `Text.BlankIffAllSpace`) |
| `Text.Contains` | src/pages/HomePage.tsx:40-41 | a haystack that starts with the needle contains it, and a needle longer than the haystack is never contained |
| `Text.ContainsIff` | src/pages/HomePage.tsx:40-41 | `includes` holds exactly when the needle occurs at some index of the haystack |
| `Api.Client.Send` | src/pages/HomePage.tsx:26 | a call issues exactly one request, which carries the default Authorization header of that moment; the headers are not changed |
| `Auth.Bearer` | src/contexts/AuthContext.tsx:48 | the header value is "Bearer " followed by the token, so the token can be read back from it (RFC 6750, section 2.1) |
| `Auth.ContextOf` | src/contexts/AuthContext.tsx:88 | consumers see exactly the provider's user, token and flag |
| `Auth.Initial` | src/contexts/AuthContext.tsx:35-38 | a mounting provider holds no user, no token, is not authenticated and is loading |
| `Auth.Restored` | src/contexts/AuthContext.tsx:40-52 | with both keys stored non-empty: authenticated, the token is the stored one, the user is the parsed stored record, the header is its bearer value and no other header changes; otherwise only loading ends |
| `Auth.LoggedIn` | src/contexts/AuthContext.tsx:54-66 | a rejected login changes nothing; a successful one stores the token and the encoded user, holds both, is authenticated and sends the bearer header; other storage keys and headers are untouched |
| `Auth.LoggedOut` | src/contexts/AuthContext.tsx:72-81 | both storage keys are gone, no user, no token, not authenticated, no Authorization header; everything else is untouched |
| `Auth.RestoreOnMount` | src/contexts/AuthContext.tsx:41-49 | the restore at mount is authenticated exactly when both keys are stored non-empty; otherwise user, token and headers stay empty or unchanged, so there is no partial session |
| `Auth.InitialConsistent` | src/contexts/AuthContext.tsx:35-37 | the session invariant holds when the provider mounts, whatever storage and headers it finds |
| `Auth.OperationsKeepConsistent` | src/contexts/AuthContext.tsx:40-81 | restore, login and logout each keep the invariant: authenticated exactly when user and token are held, and then the stored token and the bearer header match the held token |
| `Auth.LogoutIdempotent` | src/contexts/AuthContext.tsx:72-81 | logging out twice leaves the same state as logging out once |
| `Auth.LoginSurvivesReload` | src/contexts/AuthContext.tsx:41-66 | after a successful login with a non-empty token, a reloaded provider restores the same user and token and sends the same bearer header, given that the user record parses back to itself |
| `Auth.EmptyTokenLostOnReload` | src/contexts/AuthContext.tsx:44-63 | a login with an empty token is authenticated, but a reload restores no session from what it stored |
| `Auth.LogoutSurvivesReload` | src/contexts/AuthContext.tsx:41-74 | after a logout, a reloaded provider restores no session |
| `Auth.SessionStore.constructor` | src/contexts/AuthContext.tsx:34-38 | the store starts in the initial state over the given storage and client, with the invariant holding |
| `Auth.SessionStore.Value` | src/contexts/AuthContext.tsx:88 | the context value is `ContextOf` the store's state, so it carries the store's user, token and flag |
| `Auth.SessionStore.Restore` | src/contexts/AuthContext.tsx:40-52 | the step-by-step restore ends in `Restored` of the old state, sends nothing and keeps the invariant |
| `Auth.SessionStore.Login` | src/contexts/AuthContext.tsx:54-66 | sends one `POST /auth/login` with the credentials, ends in `LoggedIn` of the old state and keeps the invariant |
| `Auth.SessionStore.Register` | src/contexts/AuthContext.tsx:68-70 | sends one `POST /auth/register` with username, email and password and leaves user, token, flag, storage and headers as they were |
| `Auth.SessionStore.Logout` | src/contexts/AuthContext.tsx:72-81 | ends in `LoggedOut` of the old state, sends nothing and keeps the invariant |
| `Routing.PostPath` | src/components/PostCard.tsx:23 | the link is "/posts/" followed by the id |
| `Routing.EditPath` | src/pages/PostDetailPage.tsx:101 | the link is "/edit-post/" followed by the id |
| `Routing.Segments` | src/App.tsx:21-51 | a path has pieces exactly when it begins with '/', and a last piece is never empty, since trailing slashes are ignored |
| `Routing.SegmentsSlashFree` | src/App.tsx:21-51 | no piece of a path contains '/' |
| `Routing.NoPiecesIffAllSlashes` | src/App.tsx:22 | a path has no pieces, and so opens the home page, exactly when it consists of slashes alone |
| `Routing.SegmentsOfPieces` | src/App.tsx:21-51 | '/' followed by slash-free pieces joined with '/' (the last non-empty) and then any run of slashes has exactly those pieces |
| `Routing.SegmentsJoin` | src/App.tsx:21-51 | a path's pieces joined with '/' give the path after its leading '/', with only slashes after them |
| `Routing.JoinSplit` | src/App.tsx:21-51 | splitting at '/' and joining with '/' gives the string back |
| `Routing.SplitJoin` | src/App.tsx:21-51 | joining slash-free pieces with '/' and splitting at '/' gives the pieces back |
| `Routing.MatchPieces` | src/App.tsx:22-49 | a match is a page whose pattern is exactly the given pieces, with a non-empty `:id`; every such page is the one returned, so at most one pattern matches |
| `Routing.Match` | src/App.tsx:22-49 | a path matches a page exactly when the path's pieces are that page's pattern and its `:id` is non-empty |
| `Routing.Route` | src/App.tsx:21-51 | a path matching no pattern gives a redirect to `/` that replaces the history entry; a matching path shows its page, wrapped in the session guard for `/create-post`, `/edit-post/:id` and `/profile` |
| `Routing.PrivateRoute` | src/components/PrivateRoute.tsx:13-21 | without a session the guard yields a redirect to `/login` that replaces the history entry; with one it yields the children unchanged |
| `Routing.App` | src/App.tsx:16-17 | while the session provider restores, no route is decided; afterwards the route table runs on the provider's one session value |
| `Routing.PrivateRouteReadsOnlyFlag` | src/components/PrivateRoute.tsx:14 | two sessions with the same flag get the same decision, whatever their user or token |
| `Routing.GuardedPaths` | src/App.tsx:26-49 | without a session a path redirects to `/login` exactly when it is `/create-post`, `/edit-post/:id` or `/profile` |
| `Routing.AuthenticatedRendersMatch` | src/App.tsx:22-49 | with a session every path matching a pattern renders its page |
| `Routing.PublicPathsRender` | src/App.tsx:22-25 | `/`, `/login`, `/register` and `/posts/:id` render the same page for every session |
| `Routing.UnknownPathsRedirectHome` | src/App.tsx:50 | a path matching no pattern redirects to `/`, replacing the history entry |
| `Routing.RedirectsSettle` | src/App.tsx:21-51 | every redirect of the table replaces the history entry and lands on a path that renders a page |
| `Routing.PostPathOpensPost` | src/App.tsx:25 | the link to a post routes to that post's detail page, with or without a session |
| `Routing.EditPathOpensEditor` | src/App.tsx:34-41 | the edit link routes to that post's edit page behind the guard |
| `Routing.TrailingSlashesIgnored` | src/App.tsx:25 | a post's link followed by any run of slashes still opens that post |
| `Routing.DoubledSlashesRedirectHome` | src/App.tsx:50 | a doubled leading slash (`//w`) or a doubled inner slash (`/posts//w`) matches no pattern and is redirected to `/` |
| `Routing.ReloadKeepsPage` | src/App.tsx:16-49 | with a stored session, a reload shows the loading text first and then the page of the current path, with no redirect to `/login` |
| `Home.Matches` | src/pages/HomePage.tsx:39-41 | the empty term matches every post, and a matching term is no longer than the post's title or content |
| `Home.Filter` | src/pages/HomePage.tsx:38-42 | every kept post is a post of the list that matches the term (soundness) and every matching post is kept (completeness) |
| `Home.FilterAppend` | src/pages/HomePage.tsx:38-42 | filtering a concatenation filters each part and concatenates, so duplicates and order are kept as in the list |
| `Home.FilterIsSubsequence` | src/pages/HomePage.tsx:38 | the filtered list is a subsequence of the posts, in their original order |
| `Home.FilterKeepsMatching` | src/pages/HomePage.tsx:38-42 | a list whose every post matches passes the filter unchanged |
| `Home.FilterEmptyTerm` | src/pages/HomePage.tsx:40 | the empty search term returns the posts unchanged |
| `Home.FilterIdempotent` | src/pages/HomePage.tsx:38-42 | filtering the filtered list with the same term changes nothing |
| `Text.LowerIdempotent` | src/pages/HomePage.tsx:40-41 | lower-casing an already lower-cased string changes nothing |
| `Home.FilterLowerTerm` | src/pages/HomePage.tsx:40-41 | searching with a term selects the same posts as searching with its lower-case form |
| `Home.FilterIgnoresTermCase` | src/pages/HomePage.tsx:40-41 | two terms with the same lower-case form select the same posts |
| `Home.FilterKeepsExactlyOccurrences` | src/pages/HomePage.tsx:39-41 | a post is kept exactly when the lower-cased term occurs in its lower-cased title or content |
| `Home.AlphaBetaExample` | src/pages/HomePage.tsx:38-42 | with posts "Alpha"/"foo" and "Beta"/"bar", searching "ALPHA" keeps only the first and searching "" keeps both in order |
| `Home.HomePage.constructor` | src/pages/HomePage.tsx:19-21 | the page starts with no posts, loading, and an empty search term |
| `Home.HomePage.Load` | src/pages/HomePage.tsx:23-36 | sends one `GET /posts`; success replaces the posts, failure keeps them; loading ends either way |
| `Home.HomePage.SetSearchTerm` | src/pages/HomePage.tsx:63 | typing sets the search term |
| `Home.HomePage.View` | src/pages/HomePage.tsx:44-73 | the page shows the loading text while loading; after that it shows "No posts found" exactly when the filtered list is empty, and otherwise the cards of the filtered list |
| `Home.FailedFetchShowsNoPosts` | src/pages/HomePage.tsx:23-73 | when the fetch at mount fails, the page shows the "No posts found" message, whatever term is then typed |
| `PostCard.Preview` | src/components/PostCard.tsx:18 | the preview is at most 153 characters; content of at most 150 is returned unchanged; longer content gives its first 150 characters followed by "..." |
| `PostCard.PreviewIdempotent` | src/components/PostCard.tsx:18 | previewing a preview returns it unchanged |
| `PostCard.CardOf` | src/components/PostCard.tsx:16-40 | both links of the card point to "/posts/" followed by the id; the card shows the title, the author's name and the preview |
| `PostCard.CardLinksOpenPost` | src/components/PostCard.tsx:23-36 | both card links route to the post's detail page, with or without a session |
| `PostForm.TitleError` | src/pages/CreatePostPage.tsx:17-21 | a title passes exactly when it has at least 3 characters; an empty title gets "Title is required", a title of 1 or 2 characters gets "Title must be at least 3 characters" |
| `PostForm.Decide` | src/pages/CreatePostPage.tsx:36-47 | a request is made exactly when the title passes and the content is not blank, carrying that title and content; a title failure comes first and a blank content gives "Content is required" |
| `PostForm.TitleBoundary` | src/pages/CreatePostPage.tsx:19 | a 2-character title is refused with the length message; a 3-character title with non-blank content is sent |
| `CreatePost.CreatePostPage.constructor` | src/pages/CreatePostPage.tsx:24-34 | the page starts with an empty draft, no errors, not submitting and no navigation |
| `CreatePost.CreatePostPage.SetTitle` | src/pages/CreatePostPage.tsx:71 | typing sets the title |
| `CreatePost.CreatePostPage.SetContent` | src/pages/CreatePostPage.tsx:84 | the editor sets the content |
| `CreatePost.CreatePostPage.Cancel` | src/pages/CreatePostPage.tsx:91-97 | Cancel navigates to `/` |
| `CreatePost.CreatePostPage.SubmitEnabled` | src/pages/CreatePostPage.tsx:98-104 | the submit button is enabled exactly when no request is pending |
| `CreatePost.CreatePostPage.ClickSubmit` | src/pages/CreatePostPage.tsx:36-47 | a refused title or blank content sends nothing and leaves the page idle; a valid draft sends exactly one `POST /posts` with `{title, content}` and makes the page busy; a disabled button does nothing; the draft is never changed |
| `CreatePost.CreatePostPage.Settle` | src/pages/CreatePostPage.tsx:49-56 | success navigates to the returned post's path; failure does not navigate; the draft is kept and submitting ends either way |
| `EditPost.EditPostPage.constructor` | src/pages/EditPostPage.tsx:24-38 | the page starts loading, with an empty draft and not submitting |
| `EditPost.EditPostPage.Load` | src/pages/EditPostPage.tsx:40-56 | sends one `GET /posts/:id`; success seeds title and content from the post; failure navigates to `/`; loading ends either way |
| `EditPost.EditPostPage.SetTitle` | src/pages/EditPostPage.tsx:101 | typing sets the title |
| `EditPost.EditPostPage.SetContent` | src/pages/EditPostPage.tsx:111 | the editor sets the content |
| `EditPost.EditPostPage.Cancel` | src/pages/EditPostPage.tsx:115-121 | Cancel navigates to the post's path |
| `EditPost.EditPostPage.View` | src/pages/EditPostPage.tsx:81-128 | the form is shown only once loading is over, over the current draft, with the title's schema message the last submit left (if any) and its button enabled exactly when no request is pending |
| `EditPost.EditPostPage.ClickSubmit` | src/pages/EditPostPage.tsx:58-69 | a refused title or blank content sends nothing; a valid draft sends exactly one `PUT /posts/:id` with `{title, content}`; nothing happens while loading or submitting; the draft is never changed |
| `EditPost.EditPostPage.Settle` | src/pages/EditPostPage.tsx:71-78 | success navigates to `/posts/:id`; failure does not navigate; the draft is kept and submitting ends either way |
| `Register.UsernameError` | src/pages/RegisterPage.tsx:20 | a username passes exactly when it has at least 3 characters, with the required message first |
| `Register.EmailError` | src/pages/RegisterPage.tsx:21 | an email passes exactly when it is non-empty and satisfies the format predicate; empty gets "Email is required", malformed gets "Invalid email format" |
| `Register.PasswordError` | src/pages/RegisterPage.tsx:22 | a password passes exactly when it has at least 6 characters, with the required message first |
| `Register.ConfirmError` | src/pages/RegisterPage.tsx:23-26 | the confirmation passes exactly when it is non-empty and equals the password; a mismatch gets "Passwords must match" |
| `Register.Validate` | src/pages/RegisterPage.tsx:18-28 | the form has no errors exactly when all four field rules hold |
| `Register.FailureMessage` | src/pages/RegisterPage.tsx:51 | the failure toast shows the server's message when it is non-empty, and "Registration failed" otherwise |
| `Register.RegisterPage.constructor` | src/pages/RegisterPage.tsx:31-41 | the page starts with an empty form, no errors and not submitting |
| `Register.RegisterPage.SetForm` | src/pages/RegisterPage.tsx:69-111 | typing sets the four inputs |
| `Register.RegisterPage.ClickSubmit` | src/pages/RegisterPage.tsx:43-81 | a non-empty email the browser rejects as an e-mail address cancels the press: no schema message, nothing sent; otherwise an invalid form shows its errors and sends nothing; a valid one sends exactly one register request with username, email and password and never the confirmation; the session is unchanged |
| `Register.RegisterPage.Settle` | src/pages/RegisterPage.tsx:47-55 | success navigates to `/login`; failure shows the failure message and does not navigate; submitting ends either way |
| `PostDetail.IsAuthor` | src/pages/PostDetailPage.tsx:85 | without a session user nobody is the author; with one, the user is the author exactly when the user's id equals the post's `authorId` |
| `PostDetail.IsAuthorIgnoresAuthorRecord` | src/pages/PostDetailPage.tsx:85 | ownership is decided by `authorId` alone; replacing the nested author record does not change it |
| `PostDetail.PostDetailPage.constructor` | src/pages/PostDetailPage.tsx:24-30 | the page starts loading, with no post and not deleting |
| `PostDetail.PostDetailPage.Load` | src/pages/PostDetailPage.tsx:32-46 | sends one `GET /posts/:id`; success holds the post; failure leaves the post absent; loading ends either way |
| `PostDetail.PostDetailPage.View` | src/pages/PostDetailPage.tsx:66-114 | the view is exactly one of loading, "Post not found" (no post) or the post; the edit link and delete button appear exactly when the session user's id equals the post's `authorId` |
| `PostDetail.PostDetailPage.ClickDelete` | src/pages/PostDetailPage.tsx:48-55 | declining the confirmation changes nothing and sends nothing; confirming sends exactly one `DELETE /posts/:id` and marks the page deleting |
| `PostDetail.PostDetailPage.SettleDelete` | src/pages/PostDetailPage.tsx:56-64 | success navigates to `/`; failure keeps the post and does not navigate; deleting ends either way |
| `PostDetail.FailedFetchShowsNotFound` | src/pages/PostDetailPage.tsx:32-83 | when the fetch at mount fails, the page shows "Post not found", for any session |
| `PostDetail.OthersSeeNoControls` | src/pages/PostDetailPage.tsx:98-114 | a post whose `authorId` differs from the session user's id is shown without edit or delete controls |

## Left out

- src/services/api is not part of this model. Only its default headers and a log of the requests sent are modelled. Transport, base URL, interceptors and response parsing are not. How each request settles is an input.
- `JSON.stringify` and `JSON.parse` are the parameters `encode` and `decode` of the session store. `decode` always yields a user. The source's unguarded parse throws on corrupted storage and yields `null` for the stored text "null"; neither case is modelled.
- `toLowerCase` is modelled as ASCII lower-casing. Unicode case mapping is left out.
- Lengths count Unicode scalar values, whereas JavaScript counts UTF-16 code units. So the 3- and 6-character minimums and the 150-character cut differ from the source for characters outside the Basic Multilingual Plane.
- `trim` uses the fixed list of ECMAScript white-space and line-terminator code points given in `Text.IsSpace`.
- Rich-text editor internals are left out, and content is an opaque string. An emptied editor produces markup such as `<p><br></p>`, which is not blank.
- The preview may cut through HTML tags. Rendering of the injected HTML, JSX, CSS and `console.error` are left out. Of the toasts, only the message of the last one is kept.
- Validation library internals are left out. The email format is an abstract predicate. Each field reports its first failing rule in the order the schema tests them. Re-validation while typing after a failed submit is not modelled.
- The browser's constraint validation of the `type="email"` input is the page's parameter `nativeEmail`; the HTML e-mail address grammar itself, and the browser's stripping of line breaks and surrounding white space from that input's value, are not modelled.
- `Text.IsBlank` states in its own contract only that "" is blank. The exact condition, every character white space, is the lemma `Text.BlankIffAllSpace`; it is kept out of the function's contract because the form pages' submit decisions, which use `IsBlank`, would carry that quantified fact into every proof about them.
- Router internals are left out. Patterns are matched case-sensitively, whereas the router ignores case by default. URL decoding of `:id` and route ranking are left out. Ranking does not matter for this table: its patterns do not overlap, and the router ranks the `*` route below every other pattern whatever its position, so `*` applies only when no other pattern matches, which is how `Routing.Route` decides.
- `Routing.Segments` gives no pieces for a path that does not begin with '/', and the table then redirects to `/`. A browser location always begins with '/', so this case does not arise in the source.
- Storage access is assumed never to throw. Blocked storage (SecurityError) and a full quota (QuotaExceededError) are not modelled.
- `Auth.Restored` always ends loading. In the source, a throw while reading storage (src/contexts/AuthContext.tsx:41-42) ends the effect before loading is cleared at line 51.
- `Auth.LoggedIn` writes both storage keys or neither. In the source, a throw at line 59, after the token was written at line 58, leaves the new token stored beside the previous user record. The login then rejects, and memory keeps the old session. "Written together" depends on storage not throwing.
- Relative dates (`formatDistanceToNow`) depend on the clock and are left out.
- Asynchrony is simplified. Effect re-runs when `:id` changes, updates arriving after unmount, and interleaving of several pending requests are left out. `SessionStore.Login` and the `Load` methods take the request and its outcome in one step.
- src/components/Navbar.tsx, src/pages/ProfilePage.tsx and LoginPage are not part of this model. Neither are the no-op default context value (src/contexts/AuthContext.tsx:21-28) and the `Toaster`.
- `Auth.LoginSurvivesReload` requires a non-empty token, a non-empty encoded user and a user record that parses back to itself. Without these the round trip does not hold (see `Auth.EmptyTokenLostOnReload`).
- `Routing.PostPathOpensPost` and `Routing.EditPathOpensEditor` require an id that is non-empty and has no '/'. For other ids the source's links would not match the `:id` pattern either.
