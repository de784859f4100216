/**
 * `generateEditorialPDF` of src/lib/pdf-generator.ts: the results report as
 * a fixed script of layout-engine calls, one script per page of the source.
 * The copy is named by `Copy` identifiers; only the calls and the cursor
 * arithmetic between them are modelled.
 */
module EditorialReport {
  import opened Wrappers
  import opened PdfLayout

  const DefaultFilename: string := "NORGESTION-Informe-Texto-2025.pdf"
  /** The values handed to `onProgress`, in order. */
  const Milestones: seq<int> := [10, 30, 50, 70, 85, 95, 100]

  /** The values reported one by one, in order, are the milestones, and they follow the progress protocol. */
  lemma MilestonesAscend()
    ensures [10] + [30] + [50] + [70] + [85] + [95] + [100] == Milestones
    ensures ProgressProtocol(Milestones)
  {
  }

  /** Cover page: logo square, label, three title lines, lead paragraph and a rule. */
  function CoverScript(): seq<Step> {
    [ LogoStep, AdvanceStep(20),
      TextStep(Copy("cover.label", 0), Label, 7), SpacerStep(5),
      TextStep(Copy("cover.title", 0), Title, 7),
      TextStep(Copy("cover.title", 1), Title, 7),
      TextStep(Copy("cover.title", 2), Title, 7), SpacerStep(10),
      TextStep(Copy("cover.lead", 0), Body, 6), SpacerStep(20),
      RuleStep ]
  }

  function CoverDrawn(): seq<Drawn> {
    [ DrawnLogo, DrawnText(Copy("cover.label", 0), Label),
      DrawnText(Copy("cover.title", 0), Title), DrawnText(Copy("cover.title", 1), Title),
      DrawnText(Copy("cover.title", 2), Title), DrawnText(Copy("cover.lead", 0), Body),
      DrawnRule ]
  }

  lemma CoverDraws()
    ensures Drawing(CoverScript()) == CoverDrawn()
  {
    var s := CoverScript();
    var d := CoverDrawn();
    assert s[11..] == [];
    DrawingFrom(s, 10);
    assert Drawing(s[10..]) == d[6..];
    DrawingFrom(s, 9);
    DrawingFrom(s, 8);
    assert Drawing(s[8..]) == d[5..];
    DrawingFrom(s, 7);
    DrawingFrom(s, 6);
    assert Drawing(s[6..]) == d[4..];
    DrawingFrom(s, 5);
    assert Drawing(s[5..]) == d[3..];
    DrawingFrom(s, 4);
    assert Drawing(s[4..]) == d[2..];
    DrawingFrom(s, 3);
    DrawingFrom(s, 2);
    assert Drawing(s[2..]) == d[1..];
    DrawingFrom(s, 1);
    DrawingFrom(s, 0);
    assert Drawing(s[0..]) == d[0..];
  }

  /** The executive summary opens on the cover page with its heading. */
  function SummaryHeading(): seq<Step> {
    [TextStep(Copy("summary.heading", 0), H2, 7), SpacerStep(8)]
  }

  function SummaryHeadingDrawn(): seq<Drawn> {
    [DrawnText(Copy("summary.heading", 0), H2)]
  }

  lemma SummaryHeadingDraws()
    ensures Drawing(SummaryHeading()) == SummaryHeadingDrawn()
  {
    var s := SummaryHeading();
    var d := SummaryHeadingDrawn();
    assert s[2..] == [];
    DrawingFrom(s, 1);
    DrawingFrom(s, 0);
    assert Drawing(s[0..]) == d[0..];
  }

  /** One executive-summary point: number, title and a description indented by 12 mm. */
  function SummaryPoint(i: nat): seq<Step> {
    [ CheckStep(25),
      WriteStep(Copy("summary.number", i), Label),
      WriteStep(Copy("summary.title", i), H3), AdvanceStep(6),
      WriteStep(Copy("summary.description", i), Body),
      AdvanceLinesStep(Copy("summary.description", i), Body, ContentWidth - 12, 5, 8) ]
  }

  function SummaryPointDrawn(i: nat): seq<Drawn> {
    [ DrawnInline(Copy("summary.number", i), Label),
      DrawnInline(Copy("summary.title", i), H3),
      DrawnInline(Copy("summary.description", i), Body) ]
  }

  lemma SummaryPointDraws(i: nat)
    ensures Drawing(SummaryPoint(i)) == SummaryPointDrawn(i)
  {
    var s := SummaryPoint(i);
    var d := SummaryPointDrawn(i);
    assert s[6..] == [];
    DrawingFrom(s, 5);
    DrawingFrom(s, 4);
    assert Drawing(s[4..]) == d[2..];
    DrawingFrom(s, 3);
    DrawingFrom(s, 2);
    assert Drawing(s[2..]) == d[1..];
    DrawingFrom(s, 1);
    assert Drawing(s[1..]) == d[0..];
    DrawingFrom(s, 0);
  }

  /** The executive summary: its heading and three numbered points. */
  function ExecutiveSummaryScript(): seq<Step> {
    SummaryHeading() + Repeat(3, SummaryPoint)
  }

  function ExecutiveSummaryDrawn(): seq<Drawn> {
    SummaryHeadingDrawn() + RepeatDrawn(3, SummaryPointDrawn)
  }

  lemma ExecutiveSummaryDraws()
    ensures Drawing(ExecutiveSummaryScript()) == ExecutiveSummaryDrawn()
  {
    DrawingAppend(SummaryHeading(), Repeat(3, SummaryPoint));
    SummaryHeadingDraws();
    forall i | 0 <= i < 3 {
      SummaryPointDraws(i);
    }
    DrawingRepeat(3, SummaryPoint, SummaryPointDrawn);
  }

  /** One data-overview stat (value and caption) with its description. */
  function OverviewStat(i: nat): seq<Step> {
    [ CheckStep(30),
      StatStep(Copy("overview.stat.value", i), Copy("overview.stat.label", i)),
      TextStep(Copy("overview.stat.description", i), Body, 5), SpacerStep(8) ]
  }

  function OverviewStatDrawn(i: nat): seq<Drawn> {
    [ DrawnStat(Copy("overview.stat.value", i), Copy("overview.stat.label", i)),
      DrawnText(Copy("overview.stat.description", i), Body) ]
  }

  lemma OverviewStatDraws(i: nat)
    ensures Drawing(OverviewStat(i)) == OverviewStatDrawn(i)
  {
    var s := OverviewStat(i);
    var d := OverviewStatDrawn(i);
    assert s[4..] == [];
    DrawingFrom(s, 3);
    DrawingFrom(s, 2);
    assert Drawing(s[2..]) == d[1..];
    DrawingFrom(s, 1);
    assert Drawing(s[1..]) == d[0..];
    DrawingFrom(s, 0);
  }

  /** The disclaimer under the stats, in small type, wrapped to the content width. */
  function Disclaimer(): seq<Step> {
    [ SpacerStep(10),
      WriteStep(Copy("overview.disclaimer", 0), Small),
      AdvanceLinesStep(Copy("overview.disclaimer", 0), Small, ContentWidth, 4, 0) ]
  }

  function DisclaimerDrawn(): seq<Drawn> {
    [DrawnInline(Copy("overview.disclaimer", 0), Small)]
  }

  lemma DisclaimerDraws()
    ensures Drawing(Disclaimer()) == DisclaimerDrawn()
  {
    var s := Disclaimer();
    var d := DisclaimerDrawn();
    assert s[3..] == [];
    DrawingFrom(s, 2);
    DrawingFrom(s, 1);
    assert Drawing(s[1..]) == d[0..];
    DrawingFrom(s, 0);
  }

  /** Page "01": data overview with four stats and a disclaimer. */
  function OverviewScript(): seq<Step> {
    SectionHead("overview") + (Repeat(4, OverviewStat) + Disclaimer())
  }

  function OverviewDrawn(): seq<Drawn> {
    HeadDrawn("overview") + (RepeatDrawn(4, OverviewStatDrawn) + DisclaimerDrawn())
  }

  lemma OverviewDraws()
    ensures Drawing(OverviewScript()) == OverviewDrawn()
  {
    DrawingAppend(SectionHead("overview"), Repeat(4, OverviewStat) + Disclaimer());
    DrawingAppend(Repeat(4, OverviewStat), Disclaimer());
    HeadDraws("overview");
    forall i | 0 <= i < 4 {
      OverviewStatDraws(i);
    }
    DrawingRepeat(4, OverviewStat, OverviewStatDrawn);
    DisclaimerDraws();
  }

  /** One positioning stat: value and caption. */
  function PositioningStat(i: nat): seq<Step> {
    [StatStep(Copy("positioning.stat.value", i), Copy("positioning.stat.label", i))]
  }

  function PositioningStatDrawn(i: nat): seq<Drawn> {
    [DrawnStat(Copy("positioning.stat.value", i), Copy("positioning.stat.label", i))]
  }

  lemma PositioningStatDraws(i: nat)
    ensures Drawing(PositioningStat(i)) == PositioningStatDrawn(i)
  {
    var s := PositioningStat(i);
    var d := PositioningStatDrawn(i);
    assert s[1..] == [];
    DrawingFrom(s, 0);
    assert Drawing(s[0..]) == d[0..];
  }

  /** The highlighted keywords, wrapped as one block, and the generative-AI paragraph. */
  function HighlightedKeywords(): seq<Step> {
    [ SpacerStep(10),
      TextStep(Copy("positioning.keywords.heading", 0), H3, 7), SpacerStep(8),
      CheckLinesStep(Copy("positioning.keywords", 0), Body, ContentWidth, 5),
      WriteStep(Copy("positioning.keywords", 0), Body),
      AdvanceLinesStep(Copy("positioning.keywords", 0), Body, ContentWidth, 5, 10),
      TextStep(Copy("positioning.ai.heading", 0), H2, 7), SpacerStep(5),
      TextStep(Copy("positioning.ai.body", 0), Body, 6) ]
  }

  function HighlightedKeywordsDrawn(): seq<Drawn> {
    [ DrawnText(Copy("positioning.keywords.heading", 0), H3),
      DrawnInline(Copy("positioning.keywords", 0), Body),
      DrawnText(Copy("positioning.ai.heading", 0), H2),
      DrawnText(Copy("positioning.ai.body", 0), Body) ]
  }

  lemma HighlightedKeywordsDraws()
    ensures Drawing(HighlightedKeywords()) == HighlightedKeywordsDrawn()
  {
    var s := HighlightedKeywords();
    var d := HighlightedKeywordsDrawn();
    assert s[9..] == [];
    DrawingFrom(s, 8);
    assert Drawing(s[8..]) == d[3..];
    DrawingFrom(s, 7);
    DrawingFrom(s, 6);
    assert Drawing(s[6..]) == d[2..];
    DrawingFrom(s, 5);
    DrawingFrom(s, 4);
    assert Drawing(s[4..]) == d[1..];
    DrawingFrom(s, 3);
    DrawingFrom(s, 2);
    DrawingFrom(s, 1);
    assert Drawing(s[1..]) == d[0..];
    DrawingFrom(s, 0);
  }

  /** Page "02": search positioning, three stats, highlighted keywords and generative-AI presence. */
  function PositioningScript(): seq<Step> {
    SectionHead("positioning") + (Repeat(3, PositioningStat) + HighlightedKeywords())
  }

  function PositioningDrawn(): seq<Drawn> {
    HeadDrawn("positioning") + (RepeatDrawn(3, PositioningStatDrawn) + HighlightedKeywordsDrawn())
  }

  lemma PositioningDraws()
    ensures Drawing(PositioningScript()) == PositioningDrawn()
  {
    DrawingAppend(SectionHead("positioning"), Repeat(3, PositioningStat) + HighlightedKeywords());
    DrawingAppend(Repeat(3, PositioningStat), HighlightedKeywords());
    HeadDraws("positioning");
    forall i | 0 <= i < 3 {
      PositioningStatDraws(i);
    }
    DrawingRepeat(3, PositioningStat, PositioningStatDrawn);
    HighlightedKeywordsDraws();
  }

  /** The heading over the lead types. */
  function ContactsHeading(): seq<Step> {
    [TextStep(Copy("impact.contacts.heading", 0), H2, 7), SpacerStep(10)]
  }

  function ContactsHeadingDrawn(): seq<Drawn> {
    [DrawnText(Copy("impact.contacts.heading", 0), H2)]
  }

  lemma ContactsHeadingDraws()
    ensures Drawing(ContactsHeading()) == ContactsHeadingDrawn()
  {
    var s := ContactsHeading();
    var d := ContactsHeadingDrawn();
    assert s[2..] == [];
    DrawingFrom(s, 1);
    DrawingFrom(s, 0);
    assert Drawing(s[0..]) == d[0..];
  }

  /** One lead type: title and description. */
  function LeadType(i: nat): seq<Step> {
    [ CheckStep(20),
      TextStep(Copy("impact.lead.title", i), H3, 7),
      TextStep(Copy("impact.lead.description", i), Body, 5), SpacerStep(8) ]
  }

  function LeadTypeDrawn(i: nat): seq<Drawn> {
    [ DrawnText(Copy("impact.lead.title", i), H3),
      DrawnText(Copy("impact.lead.description", i), Body) ]
  }

  lemma LeadTypeDraws(i: nat)
    ensures Drawing(LeadType(i)) == LeadTypeDrawn(i)
  {
    var s := LeadType(i);
    var d := LeadTypeDrawn(i);
    assert s[4..] == [];
    DrawingFrom(s, 3);
    DrawingFrom(s, 2);
    assert Drawing(s[2..]) == d[1..];
    DrawingFrom(s, 1);
    assert Drawing(s[1..]) == d[0..];
    DrawingFrom(s, 0);
  }

  /** The international-reach heading and paragraph. */
  function Reach(): seq<Step> {
    [ SpacerStep(10),
      TextStep(Copy("impact.reach.heading", 0), H2, 7), SpacerStep(5),
      TextStep(Copy("impact.reach.body", 0), Body, 6) ]
  }

  function ReachDrawn(): seq<Drawn> {
    [ DrawnText(Copy("impact.reach.heading", 0), H2),
      DrawnText(Copy("impact.reach.body", 0), Body) ]
  }

  lemma ReachDraws()
    ensures Drawing(Reach()) == ReachDrawn()
  {
    var s := Reach();
    var d := ReachDrawn();
    assert s[4..] == [];
    DrawingFrom(s, 3);
    assert Drawing(s[3..]) == d[1..];
    DrawingFrom(s, 2);
    DrawingFrom(s, 1);
    assert Drawing(s[1..]) == d[0..];
    DrawingFrom(s, 0);
  }

  /** Page "03": business impact, four lead types and international reach. */
  function ImpactScript(): seq<Step> {
    SectionHead("impact") + (ContactsHeading() + Repeat(4, LeadType) + Reach())
  }

  function ImpactDrawn(): seq<Drawn> {
    HeadDrawn("impact") + (ContactsHeadingDrawn() + RepeatDrawn(4, LeadTypeDrawn) + ReachDrawn())
  }

  lemma ImpactDraws()
    ensures Drawing(ImpactScript()) == ImpactDrawn()
  {
    var head := ContactsHeading() + Repeat(4, LeadType);
    DrawingAppend(SectionHead("impact"), head + Reach());
    DrawingAppend(head, Reach());
    DrawingAppend(ContactsHeading(), Repeat(4, LeadType));
    HeadDraws("impact");
    ContactsHeadingDraws();
    forall i | 0 <= i < 4 {
      LeadTypeDraws(i);
    }
    DrawingRepeat(4, LeadType, LeadTypeDrawn);
    ReachDraws();
  }

  /** The traditional model: heading, then one line per point. */
  function TraditionalHeading(): seq<Step> {
    [TextStep(Copy("comparison.traditional.heading", 0), H2, 7), SpacerStep(8)]
  }

  function TraditionalHeadingDrawn(): seq<Drawn> {
    [DrawnText(Copy("comparison.traditional.heading", 0), H2)]
  }

  lemma TraditionalHeadingDraws()
    ensures Drawing(TraditionalHeading()) == TraditionalHeadingDrawn()
  {
    var s := TraditionalHeading();
    var d := TraditionalHeadingDrawn();
    assert s[2..] == [];
    DrawingFrom(s, 1);
    DrawingFrom(s, 0);
    assert Drawing(s[0..]) == d[0..];
  }

  function TraditionalPoint(i: nat): seq<Step> {
    [TextStep(Copy("comparison.traditional.point", i), Body, 6)]
  }

  function TraditionalPointDrawn(i: nat): seq<Drawn> {
    [DrawnText(Copy("comparison.traditional.point", i), Body)]
  }

  lemma TraditionalPointDraws(i: nat)
    ensures Drawing(TraditionalPoint(i)) == TraditionalPointDrawn(i)
  {
    var s := TraditionalPoint(i);
    var d := TraditionalPointDrawn(i);
    assert s[1..] == [];
    DrawingFrom(s, 0);
    assert Drawing(s[0..]) == d[0..];
  }

  /** The full-stack model: heading, then one line per point. */
  function FullStackHeading(): seq<Step> {
    [SpacerStep(15), TextStep(Copy("comparison.fullstack.heading", 0), H2, 7), SpacerStep(8)]
  }

  function FullStackHeadingDrawn(): seq<Drawn> {
    [DrawnText(Copy("comparison.fullstack.heading", 0), H2)]
  }

  lemma FullStackHeadingDraws()
    ensures Drawing(FullStackHeading()) == FullStackHeadingDrawn()
  {
    var s := FullStackHeading();
    var d := FullStackHeadingDrawn();
    assert s[3..] == [];
    DrawingFrom(s, 2);
    DrawingFrom(s, 1);
    assert Drawing(s[1..]) == d[0..];
    DrawingFrom(s, 0);
  }

  function FullStackPoint(i: nat): seq<Step> {
    [TextStep(Copy("comparison.fullstack.point", i), Body, 6)]
  }

  function FullStackPointDrawn(i: nat): seq<Drawn> {
    [DrawnText(Copy("comparison.fullstack.point", i), Body)]
  }

  lemma FullStackPointDraws(i: nat)
    ensures Drawing(FullStackPoint(i)) == FullStackPointDrawn(i)
  {
    var s := FullStackPoint(i);
    var d := FullStackPointDrawn(i);
    assert s[1..] == [];
    DrawingFrom(s, 0);
    assert Drawing(s[0..]) == d[0..];
  }

  /** A rule, the closing line and the footer at its fixed height. */
  function Closing(): seq<Step> {
    [ SpacerStep(15), RuleStep,
      TextStep(Copy("comparison.closing", 0), Body, 6), SpacerStep(20),
      FooterStep(Copy("report.footer", 0)) ]
  }

  function ClosingDrawn(): seq<Drawn> {
    [ DrawnRule, DrawnText(Copy("comparison.closing", 0), Body),
      DrawnInline(Copy("report.footer", 0), Small) ]
  }

  lemma ClosingDraws()
    ensures Drawing(Closing()) == ClosingDrawn()
  {
    var s := Closing();
    var d := ClosingDrawn();
    assert s[5..] == [];
    DrawingFrom(s, 4);
    assert Drawing(s[4..]) == d[2..];
    DrawingFrom(s, 3);
    DrawingFrom(s, 2);
    assert Drawing(s[2..]) == d[1..];
    DrawingFrom(s, 1);
    assert Drawing(s[1..]) == d[0..];
    DrawingFrom(s, 0);
  }

  /** Page "04": the traditional and the full-stack model side by side, the closing line and the footer. */
  function ComparisonScript(): seq<Step> {
    SectionHead("comparison") +
    (TraditionalHeading() + Repeat(4, TraditionalPoint) +
     FullStackHeading() + Repeat(4, FullStackPoint) + Closing())
  }

  function ComparisonDrawn(): seq<Drawn> {
    HeadDrawn("comparison") +
    (TraditionalHeadingDrawn() + RepeatDrawn(4, TraditionalPointDrawn) +
     FullStackHeadingDrawn() + RepeatDrawn(4, FullStackPointDrawn) + ClosingDrawn())
  }

  lemma ComparisonDraws()
    ensures Drawing(ComparisonScript()) == ComparisonDrawn()
  {
    var b := TraditionalHeading() + Repeat(4, TraditionalPoint);
    var c := b + FullStackHeading();
    var d := c + Repeat(4, FullStackPoint);
    DrawingAppend(SectionHead("comparison"), d + Closing());
    DrawingAppend(d, Closing());
    DrawingAppend(c, Repeat(4, FullStackPoint));
    DrawingAppend(b, FullStackHeading());
    DrawingAppend(TraditionalHeading(), Repeat(4, TraditionalPoint));
    HeadDraws("comparison");
    TraditionalHeadingDraws();
    forall i | 0 <= i < 4 {
      TraditionalPointDraws(i);
    }
    forall i | 0 <= i < 4 {
      FullStackPointDraws(i);
    }
    DrawingRepeat(4, TraditionalPoint, TraditionalPointDrawn);
    FullStackHeadingDraws();
    DrawingRepeat(4, FullStackPoint, FullStackPointDrawn);
    ClosingDraws();
  }

  /** The whole report, cover to footer. */
  function ReportScript(): seq<Step> {
    CoverScript() + ExecutiveSummaryScript() + OverviewScript() + PositioningScript() +
    ImpactScript() + ComparisonScript()
  }

  /** Cover page: what it draws, in order, from the cursor it is given. */
  method Cover(doc: Composer)
    requires doc.Valid()
    modifies doc
    ensures doc.Valid()
    ensures doc.State() == Run(old(doc.State()), CoverScript(), doc.wrap)
    ensures Contents(doc.ops) == Contents(old(doc.ops)) + CoverDrawn()
  {
    doc.Play(CoverScript());
    CoverDraws();
  }

  /** The executive summary, continuing the cover page. */
  method ExecutiveSummary(doc: Composer)
    requires doc.Valid()
    modifies doc
    ensures doc.Valid()
    ensures doc.State() == Run(old(doc.State()), ExecutiveSummaryScript(), doc.wrap)
    ensures Contents(doc.ops) == Contents(old(doc.ops)) + ExecutiveSummaryDrawn()
  {
    doc.Play(ExecutiveSummaryScript());
    ExecutiveSummaryDraws();
  }

  /** Page "01", opened on a fresh page. */
  method Overview(doc: Composer)
    requires doc.Valid()
    modifies doc
    ensures doc.Valid()
    ensures doc.State() == Run(old(doc.State()), OverviewScript(), doc.wrap)
    ensures Contents(doc.ops) == Contents(old(doc.ops)) + OverviewDrawn()
    ensures StartsOnFreshPage(old(doc.State()), doc.State())
  {
    doc.Play(OverviewScript());
    OverviewDraws();
  }

  /** Page "02", opened on a fresh page. */
  method Positioning(doc: Composer)
    requires doc.Valid()
    modifies doc
    ensures doc.Valid()
    ensures doc.State() == Run(old(doc.State()), PositioningScript(), doc.wrap)
    ensures Contents(doc.ops) == Contents(old(doc.ops)) + PositioningDrawn()
    ensures StartsOnFreshPage(old(doc.State()), doc.State())
  {
    doc.Play(PositioningScript());
    PositioningDraws();
  }

  /** Page "03", opened on a fresh page. */
  method Impact(doc: Composer)
    requires doc.Valid()
    modifies doc
    ensures doc.Valid()
    ensures doc.State() == Run(old(doc.State()), ImpactScript(), doc.wrap)
    ensures Contents(doc.ops) == Contents(old(doc.ops)) + ImpactDrawn()
    ensures StartsOnFreshPage(old(doc.State()), doc.State())
  {
    doc.Play(ImpactScript());
    ImpactDraws();
  }

  /** Page "04", opened on a fresh page, ending with the footer line. */
  method Comparison(doc: Composer)
    requires doc.Valid()
    modifies doc
    ensures doc.Valid()
    ensures doc.State() == Run(old(doc.State()), ComparisonScript(), doc.wrap)
    ensures Contents(doc.ops) == Contents(old(doc.ops)) + ComparisonDrawn()
    ensures StartsOnFreshPage(old(doc.State()), doc.State())
  {
    doc.Play(ComparisonScript());
    ComparisonDraws();
  }

  /**
   * `generateEditorialPDF({filename, onProgress})`: builds the five pages in
   * order, reports the fixed milestones and saves under the given name, or
   * the default one when no name is given.
   */
  method GenerateEditorialPDF(filename: Option<string>, wrap: (Copy, Style, int) -> nat)
    returns (doc: Composer, progress: seq<int>, savedAs: string)
    ensures fresh(doc) && doc.Valid() && doc.wrap == wrap
    ensures doc.State() == Run(Layout(Margin, 1, []), ReportScript(), wrap)
    ensures Contents(doc.ops) ==
      CoverDrawn() + ExecutiveSummaryDrawn() + OverviewDrawn() + PositioningDrawn() + ImpactDrawn() + ComparisonDrawn()
    ensures doc.pageCount >= 5
    ensures progress == Milestones && ProgressProtocol(progress)
    ensures savedAs == filename.GetOr(DefaultFilename)
  {
    MilestonesAscend();
    var start := Layout(Margin, 1, []);
    progress := [10];
    doc := new Composer(wrap);
    assert Contents(doc.ops) == [];
    Cover(doc);
    assert Contents(doc.ops) == CoverDrawn();
    ExecutiveSummary(doc);
    RunAppend(start, CoverScript(), ExecutiveSummaryScript(), wrap);
    ghost var script := CoverScript() + ExecutiveSummaryScript();
    progress := progress + [30];
    Overview(doc);
    RunAppend(start, script, OverviewScript(), wrap);
    script := script + OverviewScript();
    progress := progress + [50];
    Positioning(doc);
    RunAppend(start, script, PositioningScript(), wrap);
    script := script + PositioningScript();
    progress := progress + [70];
    Impact(doc);
    RunAppend(start, script, ImpactScript(), wrap);
    script := script + ImpactScript();
    progress := progress + [85];
    Comparison(doc);
    RunAppend(start, script, ComparisonScript(), wrap);
    script := script + ComparisonScript();
    assert script == ReportScript();
    progress := progress + [95];
    savedAs := filename.GetOr(DefaultFilename);
    progress := progress + [100];
  }
}
