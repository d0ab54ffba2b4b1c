/** Which anchor a heading gets, and what its title is. */
module SectionsFacts {
  import opened Options
  import opened Strings
  import opened Sections

  /** The entry is the first recorded under this title. */
  predicate FirstTitled(outline: seq<Entry>, k: nat, title: string) {
    k < |outline| && outline[k].title == title && forall j :: 0 <= j < k ==> outline[j].title != title
  }

  lemma {:induction false} FirstAnchor(outline: seq<Entry>, title: string)
    ensures (forall k :: 0 <= k < |outline| ==> outline[k].title != title) ==> AnchorOf(outline, title) == None
    ensures forall k: nat :: FirstTitled(outline, k, title) ==> AnchorOf(outline, title) == outline[k].anchor
    decreases |outline|
  {
    if outline != [] && outline[0].title != title {
      FirstAnchor(outline[1..], title);
      forall k: nat | FirstTitled(outline, k, title) ensures AnchorOf(outline, title) == outline[k].anchor {
        assert FirstTitled(outline[1..], k - 1, title);
      }
      if forall k :: 0 <= k < |outline| ==> outline[k].title != title {
        assert forall k :: 0 <= k < |outline[1..]| ==> outline[1..][k] == outline[k + 1];
      }
    }
  }

  /** The `index`th heading of a document takes the anchor recorded for that heading, if the titles
      agree; else that of the first heading recorded under its title; and none if there is none. */
  lemma AnchorIs(outline: seq<Entry>, index: nat, title: string)
    ensures var anchor := AnchorFor(outline, index, title);
      if index < |outline| && outline[index].title == title then anchor == outline[index].anchor
      else
        && (forall k: nat :: FirstTitled(outline, k, title) ==> anchor == outline[k].anchor)
        && ((forall k :: 0 <= k < |outline| ==> outline[k].title != title) ==> anchor == None)
  {
    FirstAnchor(outline, title);
  }

  predicate Gap(s: string) { s != "" && forall k :: 0 <= k < |s| ==> s[k] == ' ' || s[k] == '\t' }

  predicate HashMarks(s: string) { 1 <= |s| <= 6 && forall k :: 0 <= k < |s| ==> s[k] == '#' }

  /** A heading line, with whatever whitespace around it, has the title that follows its marks. */
  lemma HeadingIs(before: string, marks: string, gap: string, title: string, after: string)
    requires Blank(before) && Blank(after) && HashMarks(marks) && Gap(gap)
    requires title != "" && Stripped(title) && OneLine(title)
    ensures HeadingTitle(before + (marks + gap + title) + after) == title
  {
    var line, n := marks + gap + title, |marks|;
    HeadingLine(marks, gap, title);
    StripIs(before, line, after);
    GapBlank(gap);
    StripIs(gap, title, "");
    assert line[n..] == gap + title + "";
    hide Strip, IsSpace, Blank, Stripped;
  }

  /** The line has the form of a heading. */
  lemma HeadingLine(marks: string, gap: string, title: string)
    requires HashMarks(marks) && Gap(gap) && title != "" && Stripped(title) && OneLine(title)
    ensures var line := marks + gap + title;
      && line != "" && Stripped(line) && OneLine(line) && RunEnd(line, 0, c => c == '#') == |marks|
      && |marks| < |line| && (line[|marks|] == ' ' || line[|marks|] == '\t')
  {
    var line, n := marks + gap + title, |marks|;
    assert line[0] == '#' && line[|line| - 1] == title[|title| - 1] && line[n] == gap[0];
    RunIs(line, 0, n, c => c == '#');
    assert forall c :: c in line ==> c in marks || c in gap || c in title;
  }

  lemma GapBlank(gap: string)
    requires Gap(gap)
    ensures Blank(gap) && Blank("")
  {
  }
}
