/** `PDFReport` and `create_pdf`: the document as the sequence of sections
    its methods add, with the text each section carries. Fonts, colours,
    positions and the rendering itself belong to the PDF library and are
    not modelled. */
module PdfDocument {
  import opened Optional
  import opened PyInt
  import opened CrimeData
  import opened Report

  /** The banner `header` draws at the top of every page. */
  const Title: string := "Crime Statistics Across Cities"

  const IntroText: string :=
    "This report provides an analytical overview of crime data collected from various cities. "
    + "The data includes incidents of violent crimes, property crimes, and drug offenses. "
    + "The purpose of this report is to highlight crime patterns and support data-driven decisions."

  const DisclaimerText: string :=
    "Note: Crime data is based on official records and may be subject to reporting delays or "
    + "variations depending on the source jurisdiction."

  const GraphHeading: string := "Visual Representation of Crime Data"

  /** The text `footer` draws at the bottom of page `number`. */
  function Footer(number: nat): string {
    "Page " + IntToString(number)
  }

  /** One block of content, in the order the document receives them. A
      `Page` starts page `number`; the breakdown and the summary record the
      table they are drawn from. */
  datatype Section =
    | Page(number: nat)
    | Intro
    | Breakdown(data: CityTable)
    | Summary(data: CityTable)
    | Disclaimer
    | Graph(imagePath: string)

  /** The text a section puts on the page, line by line: a new page gets
      the banner of `header` (its footer is `Footer(number)`), the chart
      page its heading above the image. */
  function Text(s: Section): seq<string> {
    match s
    case Page(_) => [Title]
    case Intro => [IntroText]
    case Breakdown(data) => ReportBody(data)
    case Summary(data) => SummaryLines(data)
    case Disclaimer => [DisclaimerText]
    case Graph(_) => [GraphHeading]
  }

  /** The number of pages started in `sections`. */
  function PageCount(sections: seq<Section>): nat {
    if sections == [] then 0
    else PageCount(sections[..|sections| - 1]) + (if sections[|sections| - 1].Page? then 1 else 0)
  }

  /** Pages are numbered 1, 2, 3, ... in the order they are started. */
  predicate PagesNumbered(sections: seq<Section>) {
    forall i :: 0 <= i < |sections| && sections[i].Page? ==> sections[i].number == PageCount(sections[..i]) + 1
  }

  lemma PagesNumberedAppend(sections: seq<Section>, s: Section)
    requires PagesNumbered(sections)
    requires s.Page? ==> s.number == PageCount(sections) + 1
    ensures PagesNumbered(sections + [s])
    ensures PageCount(sections + [s]) == PageCount(sections) + (if s.Page? then 1 else 0)
  {
    var next := sections + [s];
    assert next[..|sections|] == sections;
    forall i | 0 <= i < |next| && next[i].Page?
      ensures next[i].number == PageCount(next[..i]) + 1
    {
      if i < |sections| {
        assert next[..i] == sections[..i];
      }
    }
  }

  class PdfReport {
    /** `page_no()`: the number of the current page, 0 before the first.
        Only pages started by `add_page` are counted; the library's
        automatic page breaks depend on the layout geometry, which is not
        modelled. */
    var pageNo: nat
    var sections: seq<Section>

    ghost predicate Valid()
      reads this
    {
      pageNo == PageCount(sections) && PagesNumbered(sections)
    }

    constructor ()
      ensures Valid() && pageNo == 0 && sections == []
    {
      pageNo := 0;
      sections := [];
    }

    /** `add_page`: start the next page. */
    method AddPage()
      requires Valid()
      modifies this
      ensures Valid()
      ensures pageNo == old(pageNo) + 1 && sections == old(sections) + [Page(pageNo)]
    {
      PagesNumberedAppend(sections, Page(pageNo + 1));
      pageNo := pageNo + 1;
      sections := sections + [Page(pageNo)];
    }

    /** Add a section that does not start a page. */
    method Append(s: Section)
      requires Valid() && !s.Page?
      modifies this
      ensures Valid()
      ensures pageNo == old(pageNo) && sections == old(sections) + [s]
    {
      PagesNumberedAppend(sections, s);
      sections := sections + [s];
    }

    method AddIntro()
      requires Valid()
      modifies this
      ensures Valid()
      ensures pageNo == old(pageNo) && sections == old(sections) + [Intro]
    {
      Append(Intro);
    }

    /** `report_body`: the per-city breakdown. */
    method ReportBreakdown(data: CityTable)
      requires Valid()
      modifies this
      ensures Valid()
      ensures pageNo == old(pageNo) && sections == old(sections) + [Breakdown(data)]
    {
      Append(Breakdown(data));
    }

    method AddSummary(data: CityTable)
      requires Valid()
      modifies this
      ensures Valid()
      ensures pageNo == old(pageNo) && sections == old(sections) + [Summary(data)]
    {
      Append(Summary(data));
    }

    method AddDisclaimer()
      requires Valid()
      modifies this
      ensures Valid()
      ensures pageNo == old(pageNo) && sections == old(sections) + [Disclaimer]
    {
      Append(Disclaimer);
    }

    /** `add_graph`: a new page holding the heading and the chart image. */
    method AddGraph(graphPath: string)
      requires Valid()
      modifies this
      ensures Valid()
      ensures pageNo == old(pageNo) + 1
      ensures sections == old(sections) + [Page(pageNo), Graph(graphPath)]
    {
      AddPage();
      Append(Graph(graphPath));
    }
  }

  /** The sections `create_pdf` produces, in the order it calls the
      methods. */
  function Layout(data: CityTable, graphPath: string): seq<Section> {
    [Page(1), Intro, Breakdown(data), Summary(data), Disclaimer, Page(2), Graph(graphPath)]
  }

  /** `create_pdf` up to writing the file: the sections in call order, on
      the pages its two `add_page` calls start. */
  method CreatePdf(data: CityTable, graphPath: string) returns (pdf: PdfReport)
    ensures pdf.Valid() && pdf.pageNo == 2
    ensures pdf.sections == Layout(data, graphPath)
  {
    pdf := new PdfReport();
    pdf.AddPage();
    pdf.AddIntro();
    pdf.ReportBreakdown(data);
    pdf.AddSummary(data);
    pdf.AddDisclaimer();
    pdf.AddGraph(graphPath);
  }

  /** The two `add_page` calls of `create_pdf` start pages 1 and 2, in
      order: the intro, breakdown, summary and disclaimer come after the
      first explicit `add_page` and before the second; only the chart
      follows the second. */
  lemma LayoutPages(data: CityTable, graphPath: string)
    ensures var s := Layout(data, graphPath);
      PagesNumbered(s) && PageCount(s) == 2 &&
      forall i :: 0 <= i < |s| && s[i].Page? ==> i == 0 || i == 5
  {
    var s1 := [Page(1)];
    PagesNumberedAppend([], Page(1));
    var s2 := s1 + [Intro];
    PagesNumberedAppend(s1, Intro);
    var s3 := s2 + [Breakdown(data)];
    PagesNumberedAppend(s2, Breakdown(data));
    var s4 := s3 + [Summary(data)];
    PagesNumberedAppend(s3, Summary(data));
    var s5 := s4 + [Disclaimer];
    PagesNumberedAppend(s4, Disclaimer);
    var s6 := s5 + [Page(2)];
    PagesNumberedAppend(s5, Page(2));
    PagesNumberedAppend(s6, Graph(graphPath));
    assert s6 + [Graph(graphPath)] == Layout(data, graphPath);
  }

  /** The text of each section of `sections`. */
  function Texts(sections: seq<Section>): (r: seq<seq<string>>)
    ensures |r| == |sections|
  {
    seq(|sections|, k requires 0 <= k < |sections| => Text(sections[k]))
  }

  /** The text of the whole document, one section after another. */
  function Lines(sections: seq<Section>): seq<string> {
    Flatten(Texts(sections))
  }

  lemma FlattenPrefix(blocks: seq<seq<string>>, k: int)
    requires 0 <= k < |blocks|
    ensures Flatten(blocks[..k + 1]) == Flatten(blocks[..k]) + blocks[k]
  {
    assert blocks[..k + 1][..k] == blocks[..k];
  }

  /** Seven blocks laid end to end are the blocks one after another. */
  lemma FlattenOfSeven(blocks: seq<seq<string>>)
    requires |blocks| == 7
    ensures Flatten(blocks) ==
      blocks[0] + blocks[1] + blocks[2] + blocks[3] + blocks[4] + blocks[5] + blocks[6]
  {
    var b0, b1, b2, b3, b4, b5, b6 := blocks[0], blocks[1], blocks[2], blocks[3], blocks[4], blocks[5], blocks[6];
    assert Flatten(blocks[..1]) == b0 by {
      FlattenPrefix(blocks, 0);
      assert Flatten(blocks[..0]) == [];
    }
    assert Flatten(blocks[..2]) == b0 + b1 by { FlattenPrefix(blocks, 1); }
    assert Flatten(blocks[..3]) == b0 + b1 + b2 by { FlattenPrefix(blocks, 2); }
    assert Flatten(blocks[..4]) == b0 + b1 + b2 + b3 by { FlattenPrefix(blocks, 3); }
    assert Flatten(blocks[..5]) == b0 + b1 + b2 + b3 + b4 by { FlattenPrefix(blocks, 4); }
    assert Flatten(blocks[..6]) == b0 + b1 + b2 + b3 + b4 + b5 by { FlattenPrefix(blocks, 5); }
    assert Flatten(blocks[..7]) == b0 + b1 + b2 + b3 + b4 + b5 + b6 by { FlattenPrefix(blocks, 6); }
    assert blocks[..7] == blocks;
  }

  /** The text the sections write, in reading order: the banner, the
      intro, the breakdown, the summary and the disclaimer, then the banner
      and the chart heading of the page `add_graph` starts. The footers
      `footer` draws at the bottom of each page are not part of it. */
  lemma LayoutText(data: CityTable, graphPath: string)
    ensures Lines(Layout(data, graphPath)) ==
      [Title, IntroText] + ReportBody(data) + SummaryLines(data) + [DisclaimerText, Title, GraphHeading]
  {
    var blocks := Texts(Layout(data, graphPath));
    var body, summary := ReportBody(data), SummaryLines(data);
    assert Flatten(blocks) == [Title] + [IntroText] + body + summary + [DisclaimerText] + [Title] + [GraphHeading] by {
      LayoutBlocks(data, graphPath, blocks);
      FlattenOfSeven(blocks);
    }
    Regroup(Title, IntroText, body, summary, DisclaimerText, GraphHeading);
  }

  /** The text of each section of the layout. */
  lemma LayoutBlocks(data: CityTable, graphPath: string, blocks: seq<seq<string>>)
    requires blocks == Texts(Layout(data, graphPath))
    ensures |blocks| == 7
    ensures blocks[0] == [Title] && blocks[1] == [IntroText] && blocks[2] == ReportBody(data)
    ensures blocks[3] == SummaryLines(data) && blocks[4] == [DisclaimerText]
    ensures blocks[5] == [Title] && blocks[6] == [GraphHeading]
  {
    var s := Layout(data, graphPath);
    assert s[0] == Page(1) && s[1] == Intro && s[2] == Breakdown(data) && s[3] == Summary(data);
    assert s[4] == Disclaimer && s[5] == Page(2) && s[6] == Graph(graphPath);
    assert blocks[0] == Text(s[0]) && blocks[1] == Text(s[1]) && blocks[2] == Text(s[2]);
    assert blocks[3] == Text(s[3]) && blocks[4] == Text(s[4]);
    assert blocks[5] == Text(s[5]) && blocks[6] == Text(s[6]);
  }

  lemma Regroup(title: string, intro: string, body: seq<string>, summary: seq<string>,
                disclaimer: string, heading: string)
    ensures [title] + [intro] + body + summary + [disclaimer] + [title] + [heading] ==
      [title, intro] + body + summary + [disclaimer, title, heading]
  {
  }

  /** The footer of page `n` is "Page " followed by a number that reads
      back as `n`. */
  lemma FooterReadsBack(n: nat)
    ensures Footer(n)[..5] == "Page "
    ensures ParseInt(Footer(n)[5..]) == Some(n)
  {
    assert Footer(n)[5..] == IntToString(n);
    ParseIntOfString(n);
  }
}
