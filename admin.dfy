/**
 * The one piece of logic in the admin site: the shortened comment text shown
 * in the comment list.
 */
module Admin {

  /** How many characters of a comment the admin list shows before cutting it. */
  const PreviewLength: nat := 50

  /**
   * The comment text, or, when it is longer than `PreviewLength`, its first
   * `PreviewLength` characters followed by an ellipsis of three dots.
   */
  function ContentPreview(content: string): (r: string)
    ensures |content| <= PreviewLength ==> r == content
    ensures |content| > PreviewLength ==> |r| == PreviewLength + 3 && r[PreviewLength..] == "..."
    ensures forall i :: 0 <= i < |r| && i < PreviewLength ==> i < |content| && r[i] == content[i]
    ensures |r| <= PreviewLength + 3
  {
    if |content| > PreviewLength then content[..PreviewLength] + "..." else content
  }

  /** A preview is its own preview: cutting twice gives what cutting once gave. */
  lemma PreviewIdempotent(content: string)
    ensures ContentPreview(ContentPreview(content)) == ContentPreview(content)
  {
    var p := ContentPreview(content);
    if |content| > PreviewLength {
      assert p[..PreviewLength] == content[..PreviewLength];
    }
  }
}
