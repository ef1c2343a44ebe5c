/**
 * The user prompt sent for one article: a fixed lead-in, the article between
 * `<article>` and `</article>` lines, then the fixed summary guidelines.
 * The template is indented by 8 spaces and opens with a line break; that
 * whitespace around the tags and the article is kept exactly. The wording
 * of the lead-in and of the guidelines is abridged.
 */
module Prompts {
  import opened Wrappers

  const Indent: string := "        "
  const Intro: string := "\n" + Indent + "Summarize this news article.\n\n"
  const OpenTag: string := Indent + "<article>\n" + Indent
  const CloseTag: string := "\n" + Indent + "</article>\n\n"
  const Guidelines: string := Indent + "At most 5 <bullet> points, in <summary> tags.\n" + Indent

  /** Everything before the article. */
  const Head: string := Intro + OpenTag

  /** Everything after the article. */
  const Tail: string := CloseTag + Guidelines

  /** The prompt for one article. */
  function Prompt(article: string): (p: string)
    ensures |p| == |Head| + |article| + |Tail|
    ensures p[..|Intro|] == Intro
    ensures p[|Intro|..|Head|] == OpenTag
    ensures p[|Head|..|Head| + |article|] == article
    ensures p[|Head| + |article|..|Head| + |article| + |CloseTag|] == CloseTag
    ensures p[|Head| + |article| + |CloseTag|..] == Guidelines
  {
    var p := Head + article + Tail;
    assert p[|Intro|..|Head|] == Head[|Intro|..];
    assert p[|Head| + |article|..|Head| + |article| + |CloseTag|] == Tail[..|CloseTag|];
    p
  }

  /**
   * Recovers the article from a prompt: the text between the fixed head and
   * the fixed tail, or None when `p` is not shaped like a prompt.
   */
  function ArticleOf(p: string): Option<string> {
    if |p| >= |Head| + |Tail| && p[..|Head|] == Head && p[|p| - |Tail|..] == Tail
    then Some(p[|Head|..|p| - |Tail|])
    else None
  }

  /** The article is recoverable from its prompt. */
  lemma ArticleOfPrompt(article: string)
    ensures ArticleOf(Prompt(article)) == Some(article)
  {
    var p := Prompt(article);
    assert p == Head + article + Tail;
    assert p[..|Head|] == Head;
    assert p[|p| - |Tail|..] == Tail;
    assert p[|Head|..|p| - |Tail|] == article;
  }

  /** Different articles give different prompts. */
  lemma PromptInjective(a: string, b: string)
    requires Prompt(a) == Prompt(b)
    ensures a == b
  {
    ArticleOfPrompt(a);
    ArticleOfPrompt(b);
  }
}
