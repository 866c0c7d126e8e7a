/** `PostCard`: one post in a list, with a shortened preview of its content. */
module PostCard {
  import opened Posts
  import Routing
  import Auth

  const PreviewLimit := 150
  const Ellipsis := "..."

  function Min(a: int, b: int): (m: int) { if a <= b then a else b }

  /** The content as shown on the card: at most 150 characters, then "..." if it was cut. */
  function Preview(content: string): (r: string)
    ensures |r| <= PreviewLimit + |Ellipsis|
    ensures |content| <= PreviewLimit ==> r == content
    ensures |content| > PreviewLimit ==> |r| == PreviewLimit + |Ellipsis| && r[PreviewLimit..] == Ellipsis
    ensures r[..Min(PreviewLimit, |content|)] == content[..Min(PreviewLimit, |content|)]
  {
    if |content| > PreviewLimit then content[..PreviewLimit] + Ellipsis else content
  }

  /** A preview of a preview is the preview itself. */
  lemma PreviewIdempotent(content: string)
    ensures Preview(Preview(content)) == Preview(content)
  {
  }

  /** The parts of a card the model keeps; the relative date is left out. */
  datatype Card = Card(titleLink: string, title: string, byline: string, preview: string, readMoreLink: string)

  function CardOf(post: Post): (c: Card)
    ensures c.titleLink == c.readMoreLink == Routing.PostPath(post.id)
    ensures c.title == post.title && c.byline == post.author.username
    ensures c.preview == Preview(post.content)
  {
    Card(Routing.PostPath(post.id), post.title, post.author.username, Preview(post.content), Routing.PostPath(post.id))
  }

  /** Both links of a card open the post's detail view, with or without a session. */
  lemma CardLinksOpenPost(post: Post, ctx: Auth.Context)
    requires post.id != "" && '/' !in post.id
    ensures Routing.Route(CardOf(post).titleLink, ctx) == Routing.Show(Routing.PostDetailPage(post.id))
    ensures Routing.Route(CardOf(post).readMoreLink, ctx) == Routing.Show(Routing.PostDetailPage(post.id))
  {
    Routing.PostPathOpensPost(post.id, ctx);
  }
}
