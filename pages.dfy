/** The page renderer: one fixed HTML document with three holes, filled
    verbatim (no escaping of any kind). */
module Pages {

  /** The tags around the three holes. */
  const TitleOpen: string := "<title>"
  const TitleClose: string := "</title>"
  const HeadingOpen: string := "<h1>"
  const HeadingClose: string := "</h1>"
  const ParagraphOpen: string := "<p>"
  const ParagraphClose: string := "</p>"

  /** The fixed text between the tags, whitespace included. */
  const Prologue: string :=
    "<!DOCTYPE html>\n        <html lang=\"en\">\n        <head>\n            <meta charset=\"UTF-8\" />\n            "
  const HeadToBody: string := "\n        </head>\n        <body>\n            "
  const HeadingToParagraph: string := "\n            "
  const Epilogue: string := "\n        </body>\n        </html>"

  /** The template text between title and heading: everything from the
      closing title tag up to and including the opening heading tag. */
  function TitleToHeading(): string { TitleClose + HeadToBody + HeadingOpen }

  /** `sub` occurs in `s` starting at index `i`. */
  predicate OccursAt(s: string, sub: string, i: int)
  {
    0 <= i <= i + |sub| <= |s| && s[i..i + |sub|] == sub
  }

  /** `s` holds `open`, then `content`, then `close`, with `content` starting
      at index `at`. */
  predicate Encloses(s: string, open: string, content: string, close: string, at: int)
  {
    OccursAt(s, open, at - |open|) && OccursAt(s, content, at) && OccursAt(s, close, at + |content|)
  }

  /** `sub` occurs somewhere in `s`. */
  predicate Contains(s: string, sub: string)
  {
    exists i :: 0 <= i <= |s| && OccursAt(s, sub, i)
  }

  /** Where the title starts in every rendered page. */
  function TitleAt(): nat { |Prologue| + |TitleOpen| }

  /** Where the heading starts, given the title. */
  function HeadingAt(title: string): nat { TitleAt() + |title| + |TitleToHeading()| }

  /** Where the paragraph starts, given the title and the heading. */
  function ParagraphAt(title: string, heading: string): nat
  {
    HeadingAt(title) + |heading| + |HeadingClose| + |HeadingToParagraph| + |ParagraphOpen|
  }

  /** The number of characters the template adds around its three holes. */
  function TemplateLength(): nat
  {
    ParagraphAt("", "") + |ParagraphClose| + |Epilogue|
  }

  /** renderPage: the document with the three values embedded unmodified
      inside <title>, <h1> and <p>. */
  function RenderPage(title: string, heading: string, paragraph: string): (page: string)
    ensures OccursAt(page, Prologue, 0)
    ensures Encloses(page, TitleOpen, title, TitleClose, TitleAt())
    ensures Encloses(page, HeadingOpen, heading, HeadingClose, HeadingAt(title))
    ensures Encloses(page, ParagraphOpen, paragraph, ParagraphClose, ParagraphAt(title, heading))
    ensures OccursAt(page, HeadToBody, TitleAt() + |title| + |TitleClose|)
    ensures OccursAt(page, HeadingToParagraph, HeadingAt(title) + |heading| + |HeadingClose|)
    ensures OccursAt(page, Epilogue, |page| - |Epilogue|)
    ensures |page| == |title| + |heading| + |paragraph| + TemplateLength()
  {
    var rest2 := HeadingToParagraph + ParagraphOpen + paragraph + ParagraphClose + Epilogue;
    var rest1 := HeadToBody + HeadingOpen + heading + HeadingClose + rest2;
    var page := Prologue + TitleOpen + title + TitleClose + rest1;
    TitlePlaced(title, heading, paragraph);
    HeadingPlaced(title, heading, paragraph);
    ParagraphPlaced(title, heading, paragraph);
    HeadToBodyPlaced(title, heading, paragraph);
    HeadingToParagraphPlaced(title, heading, paragraph);
    EpiloguePlaced(title, heading, paragraph);
    page
  }

  /** The prologue starts the page, and the title follows it between its
      tags. */
  lemma TitlePlaced(title: string, heading: string, paragraph: string)
    ensures var rest2 := HeadingToParagraph + ParagraphOpen + paragraph + ParagraphClose + Epilogue;
      var rest1 := HeadToBody + HeadingOpen + heading + HeadingClose + rest2;
      var page := Prologue + TitleOpen + title + TitleClose + rest1;
      && OccursAt(page, Prologue, 0)
      && Encloses(page, TitleOpen, title, TitleClose, TitleAt())
  {
    var rest2 := HeadingToParagraph + ParagraphOpen + paragraph + ParagraphClose + Epilogue;
    var rest1 := HeadToBody + HeadingOpen + heading + HeadingClose + rest2;
    EnclosedIn(Prologue, TitleOpen, title, TitleClose, rest1);
    OccursAtStart(Prologue, TitleOpen);
    OccursInPrefix(Prologue + TitleOpen, title, Prologue, 0);
    OccursInPrefix(Prologue + TitleOpen + title, TitleClose, Prologue, 0);
    OccursInPrefix(Prologue + TitleOpen + title + TitleClose, rest1, Prologue, 0);
  }

  /** The heading sits between its tags where the title leaves it. */
  lemma HeadingPlaced(title: string, heading: string, paragraph: string)
    ensures var rest2 := HeadingToParagraph + ParagraphOpen + paragraph + ParagraphClose + Epilogue;
      var rest1 := HeadToBody + HeadingOpen + heading + HeadingClose + rest2;
      var page := Prologue + TitleOpen + title + TitleClose + rest1;
      Encloses(page, HeadingOpen, heading, HeadingClose, HeadingAt(title))
  {
    var rest2 := HeadingToParagraph + ParagraphOpen + paragraph + ParagraphClose + Epilogue;
    var rest1 := HeadToBody + HeadingOpen + heading + HeadingClose + rest2;
    assert HeadingAt(title) == |Prologue + TitleOpen + title + TitleClose| + (|HeadToBody| + |HeadingOpen|);
    EnclosedIn(HeadToBody, HeadingOpen, heading, HeadingClose, rest2);
    EnclosesShifted(Prologue + TitleOpen + title + TitleClose, rest1, HeadingOpen, heading, HeadingClose,
      |HeadToBody| + |HeadingOpen|);
  }

  /** The paragraph sits between its tags where title and heading leave it. */
  lemma ParagraphPlaced(title: string, heading: string, paragraph: string)
    ensures var rest2 := HeadingToParagraph + ParagraphOpen + paragraph + ParagraphClose + Epilogue;
      var rest1 := HeadToBody + HeadingOpen + heading + HeadingClose + rest2;
      var page := Prologue + TitleOpen + title + TitleClose + rest1;
      Encloses(page, ParagraphOpen, paragraph, ParagraphClose, ParagraphAt(title, heading))
  {
    var rest2 := HeadingToParagraph + ParagraphOpen + paragraph + ParagraphClose + Epilogue;
    var rest1 := HeadToBody + HeadingOpen + heading + HeadingClose + rest2;
    assert ParagraphAt(title, heading) == |Prologue + TitleOpen + title + TitleClose|
      + (|HeadToBody + HeadingOpen + heading + HeadingClose| + |HeadingToParagraph| + |ParagraphOpen|);
    ParagraphInBody(heading, paragraph);
    EnclosesShifted(Prologue + TitleOpen + title + TitleClose, rest1, ParagraphOpen, paragraph, ParagraphClose,
      |HeadToBody + HeadingOpen + heading + HeadingClose| + |HeadingToParagraph| + |ParagraphOpen|);
  }

  /** Within the text after the title, the paragraph sits between its tags
      where the heading leaves it. */
  lemma ParagraphInBody(heading: string, paragraph: string)
    ensures var rest2 := HeadingToParagraph + ParagraphOpen + paragraph + ParagraphClose + Epilogue;
      Encloses(HeadToBody + HeadingOpen + heading + HeadingClose + rest2, ParagraphOpen, paragraph, ParagraphClose,
               |HeadToBody + HeadingOpen + heading + HeadingClose| + |HeadingToParagraph| + |ParagraphOpen|)
  {
    var rest2 := HeadingToParagraph + ParagraphOpen + paragraph + ParagraphClose + Epilogue;
    EnclosedIn(HeadingToParagraph, ParagraphOpen, paragraph, ParagraphClose, Epilogue);
    EnclosesShifted(HeadToBody + HeadingOpen + heading + HeadingClose, rest2, ParagraphOpen, paragraph, ParagraphClose,
      |HeadingToParagraph| + |ParagraphOpen|);
  }

  /** The fixed text from `</title>` to `<h1>` follows the title. */
  lemma HeadToBodyPlaced(title: string, heading: string, paragraph: string)
    ensures var rest2 := HeadingToParagraph + ParagraphOpen + paragraph + ParagraphClose + Epilogue;
      var rest1 := HeadToBody + HeadingOpen + heading + HeadingClose + rest2;
      var page := Prologue + TitleOpen + title + TitleClose + rest1;
      OccursAt(page, HeadToBody, TitleAt() + |title| + |TitleClose|)
  {
    var rest2 := HeadingToParagraph + ParagraphOpen + paragraph + ParagraphClose + Epilogue;
    var rest1 := HeadToBody + HeadingOpen + heading + HeadingClose + rest2;
    OccursAtStart(HeadToBody, HeadingOpen);
    OccursInPrefix(HeadToBody + HeadingOpen, heading, HeadToBody, 0);
    OccursInPrefix(HeadToBody + HeadingOpen + heading, HeadingClose, HeadToBody, 0);
    OccursInPrefix(HeadToBody + HeadingOpen + heading + HeadingClose, rest2, HeadToBody, 0);
    OccursShifted(Prologue + TitleOpen + title + TitleClose, rest1, HeadToBody, 0);
  }

  /** The fixed text from `</h1>` to `<p>` follows the heading. */
  lemma HeadingToParagraphPlaced(title: string, heading: string, paragraph: string)
    ensures var rest2 := HeadingToParagraph + ParagraphOpen + paragraph + ParagraphClose + Epilogue;
      var rest1 := HeadToBody + HeadingOpen + heading + HeadingClose + rest2;
      var page := Prologue + TitleOpen + title + TitleClose + rest1;
      OccursAt(page, HeadingToParagraph, HeadingAt(title) + |heading| + |HeadingClose|)
  {
    var rest2 := HeadingToParagraph + ParagraphOpen + paragraph + ParagraphClose + Epilogue;
    var rest1 := HeadToBody + HeadingOpen + heading + HeadingClose + rest2;
    OccursAtStart(HeadingToParagraph, ParagraphOpen);
    OccursInPrefix(HeadingToParagraph + ParagraphOpen, paragraph, HeadingToParagraph, 0);
    OccursInPrefix(HeadingToParagraph + ParagraphOpen + paragraph, ParagraphClose, HeadingToParagraph, 0);
    OccursInPrefix(HeadingToParagraph + ParagraphOpen + paragraph + ParagraphClose, Epilogue, HeadingToParagraph, 0);
    OccursShifted(HeadToBody + HeadingOpen + heading + HeadingClose, rest2, HeadingToParagraph, 0);
    assert HeadingAt(title) + |heading| + |HeadingClose|
      == |Prologue + TitleOpen + title + TitleClose| + |HeadToBody + HeadingOpen + heading + HeadingClose|;
    OccursShifted(Prologue + TitleOpen + title + TitleClose, rest1, HeadingToParagraph,
      |HeadToBody + HeadingOpen + heading + HeadingClose|);
  }

  /** The page ends with the closing `</body>` and `</html>`. */
  lemma EpiloguePlaced(title: string, heading: string, paragraph: string)
    ensures var rest2 := HeadingToParagraph + ParagraphOpen + paragraph + ParagraphClose + Epilogue;
      var rest1 := HeadToBody + HeadingOpen + heading + HeadingClose + rest2;
      var page := Prologue + TitleOpen + title + TitleClose + rest1;
      OccursAt(page, Epilogue, |page| - |Epilogue|)
  {
    var rest2 := HeadingToParagraph + ParagraphOpen + paragraph + ParagraphClose + Epilogue;
    var rest1 := HeadToBody + HeadingOpen + heading + HeadingClose + rest2;
    EndsWithNested(Prologue + TitleOpen + title + TitleClose, HeadToBody + HeadingOpen + heading + HeadingClose,
      HeadingToParagraph + ParagraphOpen + paragraph + ParagraphClose, Epilogue);
  }

  /** A piece placed between an opening and a closing text is enclosed by
      them, right after the opening text. */
  lemma EnclosedIn(a: string, open: string, content: string, close: string, b: string)
    ensures Encloses(a + open + content + close + b, open, content, close, |a| + |open|)
  {
  }

  /** An occurrence in `b` is an occurrence in `a + b`, |a| further on. */
  lemma OccursShifted(a: string, b: string, u: string, i: int)
    requires OccursAt(b, u, i)
    ensures OccursAt(a + b, u, |a| + i)
  {
  }

  /** An enclosure in `b` is an enclosure in `a + b`, |a| further on. */
  lemma EnclosesShifted(a: string, b: string, open: string, content: string, close: string, at: int)
    requires Encloses(b, open, content, close, at)
    ensures Encloses(a + b, open, content, close, |a| + at)
  {
  }

  /** A text occurs at the start of anything it begins. */
  lemma OccursAtStart(a: string, b: string)
    ensures OccursAt(a + b, a, 0)
  {
  }

  /** A text occurs at the end of anything it ends. */
  lemma OccursAtEnd(a: string, b: string)
    ensures OccursAt(a + b, b, |a|)
  {
  }

  /** The last of nested pieces ends the whole. */
  lemma EndsWithNested(x: string, y: string, z: string, e: string)
    ensures OccursAt(x + (y + (z + e)), e, |x + (y + (z + e))| - |e|)
  {
    OccursAtEnd(x + y + z, e);
    assert x + (y + (z + e)) == x + y + z + e;
  }

  /** An occurrence in `a` is an occurrence in `a + b`. */
  lemma OccursInPrefix(a: string, b: string, u: string, i: int)
    requires OccursAt(a, u, i)
    ensures OccursAt(a + b, u, i)
  {
  }

  /** Two pieces found next to each other form one occurrence of their
      concatenation. */
  lemma OccursJoined(s: string, a: string, b: string, i: int)
    requires OccursAt(s, a, i) && OccursAt(s, b, i + |a|)
    ensures OccursAt(s, a + b, i)
  {
    assert s[i..i + |a + b|] == s[i..i + |a|] + s[i + |a|..i + |a| + |b|];
  }

  /** The contract of `RenderPage` leaves no freedom: any text laid out as it
      promises is the rendered page. */
  lemma RenderPageContractComplete(title: string, heading: string, paragraph: string, s: string)
    requires OccursAt(s, Prologue, 0)
    requires Encloses(s, TitleOpen, title, TitleClose, TitleAt())
    requires Encloses(s, HeadingOpen, heading, HeadingClose, HeadingAt(title))
    requires Encloses(s, ParagraphOpen, paragraph, ParagraphClose, ParagraphAt(title, heading))
    requires OccursAt(s, HeadToBody, TitleAt() + |title| + |TitleClose|)
    requires OccursAt(s, HeadingToParagraph, HeadingAt(title) + |heading| + |HeadingClose|)
    requires OccursAt(s, Epilogue, |s| - |Epilogue|)
    requires |s| == |title| + |heading| + |paragraph| + TemplateLength()
    ensures s == RenderPage(title, heading, paragraph)
  {
    LaidOut(title, heading, paragraph, s);
  }

  /** A text laid out as the template is the template filled in. */
  lemma LaidOut(title: string, heading: string, paragraph: string, s: string)
    requires OccursAt(s, Prologue, 0)
    requires Encloses(s, TitleOpen, title, TitleClose, TitleAt())
    requires Encloses(s, HeadingOpen, heading, HeadingClose, HeadingAt(title))
    requires Encloses(s, ParagraphOpen, paragraph, ParagraphClose, ParagraphAt(title, heading))
    requires OccursAt(s, HeadToBody, TitleAt() + |title| + |TitleClose|)
    requires OccursAt(s, HeadingToParagraph, HeadingAt(title) + |heading| + |HeadingClose|)
    requires OccursAt(s, Epilogue, |s| - |Epilogue|)
    requires |s| == |title| + |heading| + |paragraph| + TemplateLength()
    ensures s == Prologue + TitleOpen + title + TitleClose
      + (HeadToBody + HeadingOpen + heading + HeadingClose
         + (HeadingToParagraph + ParagraphOpen + paragraph + ParagraphClose + Epilogue))
  {
    Tiled(s, Prologue, TitleOpen, title, TitleClose, HeadToBody, HeadingOpen, heading, HeadingClose,
      HeadingToParagraph, ParagraphOpen, paragraph, ParagraphClose, Epilogue,
      TitleAt(), TitleAt() + |title| + |TitleClose|, HeadingAt(title),
      HeadingAt(title) + |heading| + |HeadingClose|, ParagraphAt(title, heading));
  }

  /** Five pieces found one after the other form one occurrence. */
  lemma JoinedFive(s: string, a: string, b: string, c: string, d: string, e: string, i: int)
    requires OccursAt(s, a, i) && OccursAt(s, b, i + |a|) && OccursAt(s, c, i + |a| + |b|)
    requires OccursAt(s, d, i + |a| + |b| + |c|) && OccursAt(s, e, i + |a| + |b| + |c| + |d|)
    ensures OccursAt(s, a + b + c + d + e, i)
  {
    OccursJoined(s, a, b, i);
    OccursJoined(s, a + b, c, i);
    OccursJoined(s, a + b + c, d, i);
    OccursJoined(s, a + b + c + d, e, i);
  }

  /** Thirteen pieces found one after the other, filling `s`, are `s`; the
      three holes start at `at1`, `at2` and `at3`, the gaps after the first
      two holes' closing texts at `g1` and `g2`. */
  lemma Tiled(s: string, p0: string, p1: string, t: string, p2: string, p3: string, p4: string, h: string,
              p5: string, p6: string, p7: string, p: string, p8: string, p9: string,
              at1: int, g1: int, at2: int, g2: int, at3: int)
    requires OccursAt(s, p0, 0)
    requires at1 == |p0| + |p1| && Encloses(s, p1, t, p2, at1)
    requires g1 == at1 + |t| + |p2| && OccursAt(s, p3, g1)
    requires at2 == g1 + |p3| + |p4| && Encloses(s, p4, h, p5, at2)
    requires g2 == at2 + |h| + |p5| && OccursAt(s, p6, g2)
    requires at3 == g2 + |p6| + |p7| && Encloses(s, p7, p, p8, at3)
    requires OccursAt(s, p9, |s| - |p9|)
    requires |s| == at3 + |p| + |p8| + |p9|
    ensures s == p0 + p1 + t + p2 + (p3 + p4 + h + p5 + (p6 + p7 + p + p8 + p9))
  {
    JoinedFive(s, p6, p7, p, p8, p9, g2);
    JoinedFive(s, p3, p4, h, p5, p6 + p7 + p + p8 + p9, g1);
    JoinedFive(s, p0, p1, t, p2, p3 + p4 + h + p5 + (p6 + p7 + p + p8 + p9), 0);
    assert s == s[0..|s|];
  }

  /** Every value the renderer embeds can be read back from the page at the
      position the template puts it. */
  lemma RenderPageFieldsReadBack(title: string, heading: string, paragraph: string)
    ensures var page := RenderPage(title, heading, paragraph);
      && page[TitleAt()..TitleAt() + |title|] == title
      && page[HeadingAt(title)..HeadingAt(title) + |heading|] == heading
      && page[ParagraphAt(title, heading)..ParagraphAt(title, heading) + |paragraph|] == paragraph
  {
  }

  /** Once the lengths of title and heading are fixed, two renderings are
      equal exactly when the inputs are: equal inputs give equal output, and
      the page determines the values. */
  lemma RenderPageInjectiveGivenLengths(t: string, h: string, p: string, t': string, h': string, p': string)
    requires |t| == |t'| && |h| == |h'|
    ensures RenderPage(t, h, p) == RenderPage(t', h', p') <==> t == t' && h == h' && p == p'
  {
    if RenderPage(t, h, p) == RenderPage(t', h', p') {
      RenderPageFieldsReadBack(t, h, p);
      RenderPageFieldsReadBack(t', h', p');
    }
  }

  /** Because nothing is escaped, a value holding template markup stands for
      the markup itself: two different argument triples give one page. */
  lemma UnescapedValuesCollide()
    ensures RenderPage("", TitleToHeading(), "") == RenderPage(TitleToHeading(), "", "")
    ensures ("", TitleToHeading(), "") != (TitleToHeading(), "", "")
  {
    Regroup(Prologue, TitleOpen, TitleClose, HeadToBody, HeadingOpen, HeadingClose,
      HeadingToParagraph + ParagraphOpen + "" + ParagraphClose + Epilogue);
  }

  /** With every part abstract: an empty title followed by the markup `x`
      as heading reads the same as `x` as title followed by an empty heading. */
  lemma Regroup(p0: string, p1: string, p3: string, p4: string, p5: string, p7: string, rest: string)
    ensures var x := p3 + p4 + p5;
      p0 + p1 + "" + p3 + (p4 + p5 + x + p7 + rest) == p0 + p1 + x + p3 + (p4 + p5 + "" + p7 + rest)
  {
  }

  /** The paragraph, in particular any reflected form value, appears in the
      page as a substring. */
  lemma RenderPageContainsParagraph(title: string, heading: string, paragraph: string)
    ensures Contains(RenderPage(title, heading, paragraph), paragraph)
  {
  }
}
