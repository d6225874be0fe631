/**
  The last stage of the recommendation formatter: the text is cut at blank
  lines, every chunk that is not already a heading or list block is wrapped
  in a paragraph element, and the chunks are joined with single newlines.
  The header, bold and list substitutions that run before it are not modelled.
 */
module Formatter {

  import opened Options
  import opened Strings

  const ParagraphBreak: string := "\n\n"
  const LineBreak: string := "\n"
  const HeadingTag: string := "<h3>"
  const ListTag: string := "<ul>"
  const OpenParagraph: string := "<p>"
  const CloseParagraph: string := "</p>"

  /** A chunk holding a heading or list element is emitted as it is. */
  predicate IsBlock(chunk: string) {
    Contains(chunk, HeadingTag) || Contains(chunk, ListTag)
  }

  /** The blank-line separated chunks of the text. */
  function Chunks(text: string): seq<string> {
    Split(text, ParagraphBreak)
  }

  /**
    Strips the paragraph element that `WrapParagraph` adds; blocks are left
    alone. This is the inverse used to state what wrapping preserves.
   */
  function Unwrap(para: string): string {
    if IsBlock(para) || |para| < |OpenParagraph| + |CloseParagraph| then para
    else para[|OpenParagraph|..|para| - |CloseParagraph|]
  }

  /**
    One chunk of the paragraph stage. Wrapping never turns a plain chunk into
    a block, and `Unwrap` recovers the chunk exactly.
   */
  function WrapParagraph(chunk: string): (r: string)
    ensures IsBlock(chunk) ==> r == chunk
    ensures !IsBlock(chunk) ==> r == OpenParagraph + chunk + CloseParagraph
    ensures IsBlock(r) <==> IsBlock(chunk)
    ensures Unwrap(r) == chunk
  {
    if IsBlock(chunk) then chunk
    else
      var r := OpenParagraph + chunk + CloseParagraph;
      TagNotStraddled(chunk, HeadingTag);
      TagNotStraddled(chunk, ListTag);
      assert r[|OpenParagraph|..|r| - |CloseParagraph|] == chunk;
      r
  }

  /** The output chunks, one per input chunk, before they are joined. */
  function Paragraphs(text: string): (ps: seq<string>)
    ensures |ps| == |Chunks(text)|
    ensures forall k :: 0 <= k < |ps| ==>
      (IsBlock(Chunks(text)[k]) ==> ps[k] == Chunks(text)[k])
      && (!IsBlock(Chunks(text)[k]) ==> ps[k] == OpenParagraph + Chunks(text)[k] + CloseParagraph)
  {
    var cs := Chunks(text);
    seq(|cs|, k requires 0 <= k < |cs| => WrapParagraph(cs[k]))
  }

  /** The paragraph stage of `formatRecommendation`. */
  function FormatParagraphs(text: string): (r: string)
    ensures !Contains(text, ParagraphBreak) && IsBlock(text) ==> r == text
    ensures !Contains(text, ParagraphBreak) && !IsBlock(text) ==> r == OpenParagraph + text + CloseParagraph
  {
    Join(Paragraphs(text), LineBreak)
  }

  /**
    The output is the first chunk's result, a newline, then the output for the
    rest of the text after the first blank line.
   */
  lemma FormatParagraphsStep(text: string, i: nat)
    requires IndexOf(text, ParagraphBreak, 0) == Some(i)
    ensures FormatParagraphs(text)
      == WrapParagraph(text[..i]) + LineBreak + FormatParagraphs(text[i + 2..])
  {
    var rest := text[i + 2..];
    assert Chunks(text) == [text[..i]] + Chunks(rest);
    var ps := Paragraphs(text);
    assert ps == [WrapParagraph(text[..i])] + Paragraphs(rest);
    assert ps[1..] == Paragraphs(rest);
  }

  /**
    The stage only adds tags: unwrapping every output chunk and rejoining
    with blank lines gives back the input text.
   */
  lemma ParagraphsRoundTrip(text: string)
    ensures var ps := Paragraphs(text);
      Join(seq(|ps|, k requires 0 <= k < |ps| => Unwrap(ps[k])), ParagraphBreak) == text
  {
    var ps := Paragraphs(text);
    var cs := Chunks(text);
    var us := seq(|ps|, k requires 0 <= k < |ps| => Unwrap(ps[k]));
    assert us == cs;
  }

  /**
    A four-character tag starting with `<` cannot straddle the `<p>` or `</p>`
    added around a chunk, so the wrapped chunk holds it only if the chunk does.
   */
  lemma TagNotStraddled(c: string, tag: string)
    requires |tag| == 4 && tag[0] == '<' && tag[1] != 'p' && tag[1] != '/'
    requires tag[1] != '<' && tag[2] != '<' && tag[3] != '<'
    ensures Contains(OpenParagraph + c + CloseParagraph, tag) <==> Contains(c, tag)
  {
    var w := OpenParagraph + c + CloseParagraph;
    var k := |c| + 3;
    assert |w| == k + 4;
    assert w[1] == 'p' && w[2] == '>' && w[k] == '<' && w[k + 1] == '/';
    if Contains(w, tag) {
      var i :| 0 <= i <= |w| && OccursAt(w, tag, i);
      assert forall m :: 0 <= m < 4 ==> w[i + m] == tag[m];
      assert i != 0 && i != 1 && i != 2;
      assert i != k && i != k - 1 && i != k - 2 && i != k - 3;
      assert c[i - 3..i + 1] == w[i..i + 4];
      assert OccursAt(c, tag, i - 3);
    }
    if Contains(c, tag) {
      var i :| 0 <= i <= |c| && OccursAt(c, tag, i);
      assert w[i + 3..i + 7] == c[i..i + 4];
      assert OccursAt(w, tag, i + 3);
    }
  }

}
