/**
 * What the create and edit pages share: the title schema (declared twice in
 * the source, identically) and the content check that `onSubmit` makes before
 * any request.
 */
module PostForm {
  import opened Wrappers
  import Text

  const MinTitleLength := 3
  const TitleRequired := "Title is required"
  const TitleTooShort := "Title must be at least 3 characters"
  const ContentRequired := "Content is required"

  /** The first message the title schema reports: `required` is tested before `min(3)`. */
  function TitleError(title: string): (e: Option<string>)
    ensures e.None? <==> |title| >= MinTitleLength
    ensures title == "" ==> e == Some(TitleRequired)
    ensures 0 < |title| < MinTitleLength ==> e == Some(TitleTooShort)
  {
    if title == "" then Some(TitleRequired)
    else if |title| < MinTitleLength then Some(TitleTooShort)
    else None
  }

  /** The outcome of pressing submit on an idle form. */
  datatype Decision =
    | RejectTitle(message: string)        // the schema failed; `onSubmit` does not run
    | RejectContent                       // `onSubmit` returns early on blank content
    | Send(title: string, content: string)

  /**
   * The schema validates the title first; only a valid title reaches
   * `onSubmit`, which then checks that the content is not blank.
   */
  function Decide(title: string, content: string): (d: Decision)
    ensures d.Send? <==> |title| >= MinTitleLength && !Text.IsBlank(content)
    ensures d.Send? ==> d.title == title && d.content == content
    ensures d.RejectTitle? <==> TitleError(title).Some?
    ensures d.RejectTitle? ==> TitleError(title) == Some(d.message)
    ensures d.RejectContent? <==> TitleError(title).None? && Text.IsBlank(content)
  {
    match TitleError(title)
    case Some(message) => RejectTitle(message)
    case None => if Text.IsBlank(content) then RejectContent else Send(title, content)
  }

  /** A title of length 2 is refused with the length message; one of length 3 with some content is sent. */
  lemma TitleBoundary(content: string)
    requires exists i :: 0 <= i < |content| && !Text.IsSpace(content[i])
    ensures Decide("ab", content) == RejectTitle(TitleTooShort)
    ensures Decide("abc", content) == Send("abc", content)
  {
    Text.BlankIffAllSpace(content);
  }
}
