/**
 * `generatePropuestaEditorialPDF` of src/lib/pdf-generator.ts: the strategic
 * proposal as a fixed script of layout-engine calls. It shares the report's
 * engine but has no `addStat`, sets its cover title with a 12 mm line
 * height and reports different milestones.
 */
module EditorialProposal {
  import opened Wrappers
  import opened PdfLayout

  const DefaultFilename: string := "NORGESTION-Propuesta-2026.pdf"
  /** The values handed to `onProgress`, in order. */
  const Milestones: seq<int> := [10, 20, 35, 50, 70, 95, 100]

  /** The values reported one by one, in order, are the milestones, and they follow the progress protocol. */
  lemma MilestonesAscend()
    ensures [10] + [20] + [35] + [50] + [70] + [95] + [100] == Milestones
    ensures ProgressProtocol(Milestones)
  {
  }

  /** Cover page: logo square, label, three title lines set 12 mm apart, lead paragraph and a rule. */
  function CoverScript(): seq<Step> {
    [ LogoStep, AdvanceStep(20),
      TextStep(Copy("cover.label", 0), Label, 7), SpacerStep(5),
      TextStep(Copy("cover.title", 0), Title, 12),
      TextStep(Copy("cover.title", 1), Title, 12),
      TextStep(Copy("cover.title", 2), Title, 12), SpacerStep(10),
      TextStep(Copy("cover.lead", 0), Body, 6), SpacerStep(20),
      RuleStep ]
  }

  function CoverDrawn(): seq<Drawn> {
    [ DrawnLogo, DrawnText(Copy("cover.label", 0), Label),
      DrawnText(Copy("cover.title", 0), Title), DrawnText(Copy("cover.title", 1), Title),
      DrawnText(Copy("cover.title", 2), Title), DrawnText(Copy("cover.lead", 0), Body),
      DrawnRule ]
  }

  lemma CoverDraws()
    ensures Drawing(CoverScript()) == CoverDrawn()
  {
    var s := CoverScript();
    var d := CoverDrawn();
    assert s[11..] == [];
    DrawingFrom(s, 10);
    assert Drawing(s[10..]) == d[6..];
    DrawingFrom(s, 9);
    DrawingFrom(s, 8);
    assert Drawing(s[8..]) == d[5..];
    DrawingFrom(s, 7);
    DrawingFrom(s, 6);
    assert Drawing(s[6..]) == d[4..];
    DrawingFrom(s, 5);
    assert Drawing(s[5..]) == d[3..];
    DrawingFrom(s, 4);
    assert Drawing(s[4..]) == d[2..];
    DrawingFrom(s, 3);
    DrawingFrom(s, 2);
    assert Drawing(s[2..]) == d[1..];
    DrawingFrom(s, 1);
    DrawingFrom(s, 0);
    assert Drawing(s[0..]) == d[0..];
  }

  /**
   * One numbered entry: after a page check for `needed` millimetres, number
   * and title on the cursor line, then the description wrapped to the full
   * content width below them.
   */
  function NumberedEntry(block: string, i: nat, needed: int, titleStyle: Style, titleAdvance: nat, gap: nat): seq<Step> {
    [ CheckStep(needed),
      WriteStep(Copy(block + ".number", i), Label),
      WriteStep(Copy(block + ".title", i), titleStyle), AdvanceStep(titleAdvance),
      WriteStep(Copy(block + ".description", i), Body),
      AdvanceLinesStep(Copy(block + ".description", i), Body, ContentWidth, 5, gap) ]
  }

  function NumberedEntryDrawn(block: string, i: nat, titleStyle: Style): seq<Drawn> {
    [ DrawnInline(Copy(block + ".number", i), Label),
      DrawnInline(Copy(block + ".title", i), titleStyle),
      DrawnInline(Copy(block + ".description", i), Body) ]
  }

  lemma NumberedEntryDraws(block: string, i: nat, needed: int, titleStyle: Style, titleAdvance: nat, gap: nat)
    ensures Drawing(NumberedEntry(block, i, needed, titleStyle, titleAdvance, gap)) == NumberedEntryDrawn(block, i, titleStyle)
  {
    var s := NumberedEntry(block, i, needed, titleStyle, titleAdvance, gap);
    var d := NumberedEntryDrawn(block, i, titleStyle);
    assert s[6..] == [];
    DrawingFrom(s, 5);
    DrawingFrom(s, 4);
    assert Drawing(s[4..]) == d[2..];
    DrawingFrom(s, 3);
    DrawingFrom(s, 2);
    assert Drawing(s[2..]) == d[1..];
    DrawingFrom(s, 1);
    assert Drawing(s[1..]) == d[0..];
    DrawingFrom(s, 0);
  }

  /** An objective: checked for 35 mm, titled in H2, 8 mm below the number line, 10 mm after. */
  function Objective(i: nat): seq<Step> {
    NumberedEntry("objectives", i, 35, H2, 8, 10)
  }

  function ObjectiveDrawn(i: nat): seq<Drawn> {
    NumberedEntryDrawn("objectives", i, H2)
  }

  /** A line of action: checked for 30 mm, titled in H3, 7 mm below the number line, 8 mm after. */
  function Action(i: nat): seq<Step> {
    NumberedEntry("actions", i, 30, H3, 7, 8)
  }

  function ActionDrawn(i: nat): seq<Drawn> {
    NumberedEntryDrawn("actions", i, H3)
  }

  /** Page "Objetivos": four strategic objectives. */
  function ObjectivesScript(): seq<Step> {
    SectionHead("objectives") + Repeat(4, Objective)
  }

  function ObjectivesDrawn(): seq<Drawn> {
    HeadDrawn("objectives") + RepeatDrawn(4, ObjectiveDrawn)
  }

  lemma ObjectivesDraws()
    ensures Drawing(ObjectivesScript()) == ObjectivesDrawn()
  {
    DrawingAppend(SectionHead("objectives"), Repeat(4, Objective));
    HeadDraws("objectives");
    forall i | 0 <= i < 4
      ensures Drawing(Objective(i)) == ObjectiveDrawn(i)
    {
      NumberedEntryDraws("objectives", i, 35, H2, 8, 10);
    }
    DrawingRepeat(4, Objective, ObjectiveDrawn);
  }

  /** The strategic hypothesis under a rule, closing the actions page. */
  function Hypothesis(): seq<Step> {
    [ SpacerStep(5), RuleStep,
      TextStep(Copy("hypothesis.heading", 0), H3, 7), SpacerStep(3),
      TextStep(Copy("hypothesis.body", 0), Body, 6) ]
  }

  function HypothesisDrawn(): seq<Drawn> {
    [ DrawnRule,
      DrawnText(Copy("hypothesis.heading", 0), H3),
      DrawnText(Copy("hypothesis.body", 0), Body) ]
  }

  lemma HypothesisDraws()
    ensures Drawing(Hypothesis()) == HypothesisDrawn()
  {
    var s := Hypothesis();
    var d := HypothesisDrawn();
    assert s[5..] == [];
    DrawingFrom(s, 4);
    assert Drawing(s[4..]) == d[2..];
    DrawingFrom(s, 3);
    DrawingFrom(s, 2);
    assert Drawing(s[2..]) == d[1..];
    DrawingFrom(s, 1);
    assert Drawing(s[1..]) == d[0..];
    DrawingFrom(s, 0);
  }

  /** Page "Actuación": six lines of action, then the strategic hypothesis. */
  function ActionsScript(): seq<Step> {
    SectionHead("actions") + (Repeat(6, Action) + Hypothesis())
  }

  function ActionsDrawn(): seq<Drawn> {
    HeadDrawn("actions") + (RepeatDrawn(6, ActionDrawn) + HypothesisDrawn())
  }

  lemma ActionsDraws()
    ensures Drawing(ActionsScript()) == ActionsDrawn()
  {
    DrawingAppend(SectionHead("actions"), Repeat(6, Action) + Hypothesis());
    DrawingAppend(Repeat(6, Action), Hypothesis());
    HeadDraws("actions");
    forall i | 0 <= i < 6
      ensures Drawing(Action(i)) == ActionDrawn(i)
    {
      NumberedEntryDraws("actions", i, 30, H3, 7, 8);
    }
    DrawingRepeat(6, Action, ActionDrawn);
    HypothesisDraws();
  }

  /** The heading over the recurring services. */
  function ServicesHeading(): seq<Step> {
    [TextStep(Copy("pricing.services.heading", 0), H2, 7), SpacerStep(10)]
  }

  function ServicesHeadingDrawn(): seq<Drawn> {
    [DrawnText(Copy("pricing.services.heading", 0), H2)]
  }

  lemma ServicesHeadingDraws()
    ensures Drawing(ServicesHeading()) == ServicesHeadingDrawn()
  {
    var s := ServicesHeading();
    var d := ServicesHeadingDrawn();
    assert s[2..] == [];
    DrawingFrom(s, 1);
    DrawingFrom(s, 0);
    assert Drawing(s[0..]) == d[0..];
  }

  /** One service: its title as a checked block, then concept and detail at the cursor. */
  function Service(i: nat): seq<Step> {
    [ CheckStep(25),
      TextStep(Copy("pricing.service.title", i), H3, 7),
      WriteStep(Copy("pricing.service.concept", i), Small), AdvanceStep(5),
      WriteStep(Copy("pricing.service.detail", i), Body),
      AdvanceLinesStep(Copy("pricing.service.detail", i), Body, ContentWidth, 5, 8) ]
  }

  function ServiceDrawn(i: nat): seq<Drawn> {
    [ DrawnText(Copy("pricing.service.title", i), H3),
      DrawnInline(Copy("pricing.service.concept", i), Small),
      DrawnInline(Copy("pricing.service.detail", i), Body) ]
  }

  lemma ServiceDraws(i: nat)
    ensures Drawing(Service(i)) == ServiceDrawn(i)
  {
    var s := Service(i);
    var d := ServiceDrawn(i);
    assert s[6..] == [];
    DrawingFrom(s, 5);
    DrawingFrom(s, 4);
    assert Drawing(s[4..]) == d[2..];
    DrawingFrom(s, 3);
    DrawingFrom(s, 2);
    assert Drawing(s[2..]) == d[1..];
    DrawingFrom(s, 1);
    assert Drawing(s[1..]) == d[0..];
    DrawingFrom(s, 0);
  }

  /** The monthly fee under a rule, then the disclaimer in the small (italic) style. */
  function MonthlyFee(): seq<Step> {
    [ SpacerStep(5), RuleStep,
      WriteStep(Copy("pricing.fee.caption", 0), H2),
      WriteStep(Copy("pricing.fee.amount", 0), H1), AdvanceStep(15),
      WriteStep(Copy("pricing.disclaimer", 0), Small),
      AdvanceLinesStep(Copy("pricing.disclaimer", 0), Small, ContentWidth, 4, 0) ]
  }

  function MonthlyFeeDrawn(): seq<Drawn> {
    [ DrawnRule,
      DrawnInline(Copy("pricing.fee.caption", 0), H2),
      DrawnInline(Copy("pricing.fee.amount", 0), H1),
      DrawnInline(Copy("pricing.disclaimer", 0), Small) ]
  }

  lemma MonthlyFeeDraws()
    ensures Drawing(MonthlyFee()) == MonthlyFeeDrawn()
  {
    var s := MonthlyFee();
    var d := MonthlyFeeDrawn();
    assert s[7..] == [];
    DrawingFrom(s, 6);
    DrawingFrom(s, 5);
    assert Drawing(s[5..]) == d[3..];
    DrawingFrom(s, 4);
    DrawingFrom(s, 3);
    assert Drawing(s[3..]) == d[2..];
    DrawingFrom(s, 2);
    assert Drawing(s[2..]) == d[1..];
    DrawingFrom(s, 1);
    assert Drawing(s[1..]) == d[0..];
    DrawingFrom(s, 0);
  }

  /** Page "Inversión": six recurring services, the monthly fee and the disclaimer. */
  function PricingScript(): seq<Step> {
    SectionTitle("pricing") + (ServicesHeading() + Repeat(6, Service) + MonthlyFee())
  }

  function PricingDrawn(): seq<Drawn> {
    TitleDrawn("pricing") + (ServicesHeadingDrawn() + RepeatDrawn(6, ServiceDrawn) + MonthlyFeeDrawn())
  }

  lemma PricingDraws()
    ensures Drawing(PricingScript()) == PricingDrawn()
  {
    var services := ServicesHeading() + Repeat(6, Service);
    DrawingAppend(SectionTitle("pricing"), services + MonthlyFee());
    DrawingAppend(services, MonthlyFee());
    DrawingAppend(ServicesHeading(), Repeat(6, Service));
    TitleDraws("pricing");
    ServicesHeadingDraws();
    forall i | 0 <= i < 6 {
      ServiceDraws(i);
    }
    DrawingRepeat(6, Service, ServiceDrawn);
    MonthlyFeeDraws();
  }

  /** One calendar step: its period at the cursor, then title and description as checked blocks. */
  function CalendarStep(i: nat): seq<Step> {
    [ CheckStep(25),
      WriteStep(Copy("calendar.period", i), Label), AdvanceStep(6),
      TextStep(Copy("calendar.title", i), H2, 7),
      TextStep(Copy("calendar.description", i), Body, 5), SpacerStep(12) ]
  }

  function CalendarStepDrawn(i: nat): seq<Drawn> {
    [ DrawnInline(Copy("calendar.period", i), Label),
      DrawnText(Copy("calendar.title", i), H2),
      DrawnText(Copy("calendar.description", i), Body) ]
  }

  lemma CalendarStepDraws(i: nat)
    ensures Drawing(CalendarStep(i)) == CalendarStepDrawn(i)
  {
    var s := CalendarStep(i);
    var d := CalendarStepDrawn(i);
    assert s[6..] == [];
    DrawingFrom(s, 5);
    DrawingFrom(s, 4);
    assert Drawing(s[4..]) == d[2..];
    DrawingFrom(s, 3);
    assert Drawing(s[3..]) == d[1..];
    DrawingFrom(s, 2);
    DrawingFrom(s, 1);
    assert Drawing(s[1..]) == d[0..];
    DrawingFrom(s, 0);
  }

  /** Page "Siguientes pasos": two calendar steps. */
  function CalendarScript(): seq<Step> {
    SectionTitle("calendar") + Repeat(2, CalendarStep)
  }

  function CalendarDrawn(): seq<Drawn> {
    TitleDrawn("calendar") + RepeatDrawn(2, CalendarStepDrawn)
  }

  lemma CalendarDraws()
    ensures Drawing(CalendarScript()) == CalendarDrawn()
  {
    DrawingAppend(SectionTitle("calendar"), Repeat(2, CalendarStep));
    TitleDraws("calendar");
    forall i | 0 <= i < 2 {
      CalendarStepDraws(i);
    }
    DrawingRepeat(2, CalendarStep, CalendarStepDrawn);
  }

  /** The philosophy statement under a rule on the calendar page, then the footer. */
  function PhilosophyScript(): seq<Step> {
    [ SpacerStep(10), RuleStep,
      TextStep(Copy("philosophy.label", 0), Label, 7), SpacerStep(5),
      TextStep(Copy("philosophy.heading", 0), H1, 7), SpacerStep(10),
      TextStep(Copy("philosophy.stance", 0), H3, 7), SpacerStep(8),
      TextStep(Copy("philosophy.body", 0), Body, 6), SpacerStep(20),
      FooterStep(Copy("proposal.footer", 0)) ]
  }

  function PhilosophyDrawn(): seq<Drawn> {
    [ DrawnRule,
      DrawnText(Copy("philosophy.label", 0), Label),
      DrawnText(Copy("philosophy.heading", 0), H1),
      DrawnText(Copy("philosophy.stance", 0), H3),
      DrawnText(Copy("philosophy.body", 0), Body),
      DrawnInline(Copy("proposal.footer", 0), Small) ]
  }

  lemma PhilosophyDraws()
    ensures Drawing(PhilosophyScript()) == PhilosophyDrawn()
  {
    var s := PhilosophyScript();
    var d := PhilosophyDrawn();
    assert s[11..] == [];
    DrawingFrom(s, 10);
    assert Drawing(s[10..]) == d[5..];
    DrawingFrom(s, 9);
    DrawingFrom(s, 8);
    assert Drawing(s[8..]) == d[4..];
    DrawingFrom(s, 7);
    DrawingFrom(s, 6);
    assert Drawing(s[6..]) == d[3..];
    DrawingFrom(s, 5);
    DrawingFrom(s, 4);
    assert Drawing(s[4..]) == d[2..];
    DrawingFrom(s, 3);
    DrawingFrom(s, 2);
    assert Drawing(s[2..]) == d[1..];
    DrawingFrom(s, 1);
    assert Drawing(s[1..]) == d[0..];
    DrawingFrom(s, 0);
  }

  /** The whole proposal, cover to footer. */
  function ProposalScript(): seq<Step> {
    CoverScript() + ObjectivesScript() + ActionsScript() + PricingScript() +
    CalendarScript() + PhilosophyScript()
  }

  /** Cover page: what it draws, in order, from the cursor it is given. */
  method Cover(doc: Composer)
    requires doc.Valid()
    modifies doc
    ensures doc.Valid()
    ensures doc.State() == Run(old(doc.State()), CoverScript(), doc.wrap)
    ensures Contents(doc.ops) == Contents(old(doc.ops)) + CoverDrawn()
  {
    doc.Play(CoverScript());
    CoverDraws();
  }

  /** Page "Objetivos", opened on a fresh page. */
  method Objectives(doc: Composer)
    requires doc.Valid()
    modifies doc
    ensures doc.Valid()
    ensures doc.State() == Run(old(doc.State()), ObjectivesScript(), doc.wrap)
    ensures Contents(doc.ops) == Contents(old(doc.ops)) + ObjectivesDrawn()
    ensures StartsOnFreshPage(old(doc.State()), doc.State())
  {
    doc.Play(ObjectivesScript());
    ObjectivesDraws();
  }

  /** Page "Actuación", opened on a fresh page. */
  method Actions(doc: Composer)
    requires doc.Valid()
    modifies doc
    ensures doc.Valid()
    ensures doc.State() == Run(old(doc.State()), ActionsScript(), doc.wrap)
    ensures Contents(doc.ops) == Contents(old(doc.ops)) + ActionsDrawn()
    ensures StartsOnFreshPage(old(doc.State()), doc.State())
  {
    doc.Play(ActionsScript());
    ActionsDraws();
  }

  /** Page "Inversión", opened on a fresh page. */
  method Pricing(doc: Composer)
    requires doc.Valid()
    modifies doc
    ensures doc.Valid()
    ensures doc.State() == Run(old(doc.State()), PricingScript(), doc.wrap)
    ensures Contents(doc.ops) == Contents(old(doc.ops)) + PricingDrawn()
    ensures StartsOnFreshPage(old(doc.State()), doc.State())
  {
    doc.Play(PricingScript());
    PricingDraws();
  }

  /** Page "Siguientes pasos", opened on a fresh page. */
  method Calendar(doc: Composer)
    requires doc.Valid()
    modifies doc
    ensures doc.Valid()
    ensures doc.State() == Run(old(doc.State()), CalendarScript(), doc.wrap)
    ensures Contents(doc.ops) == Contents(old(doc.ops)) + CalendarDrawn()
    ensures StartsOnFreshPage(old(doc.State()), doc.State())
  {
    doc.Play(CalendarScript());
    CalendarDraws();
  }

  /** The philosophy statement and the footer, continuing the calendar page. */
  method Philosophy(doc: Composer)
    requires doc.Valid()
    modifies doc
    ensures doc.Valid()
    ensures doc.State() == Run(old(doc.State()), PhilosophyScript(), doc.wrap)
    ensures Contents(doc.ops) == Contents(old(doc.ops)) + PhilosophyDrawn()
  {
    doc.Play(PhilosophyScript());
    PhilosophyDraws();
  }

  /**
   * `generatePropuestaEditorialPDF({filename, onProgress})`: builds the five
   * pages in order, reports the fixed milestones and saves under the given
   * name, or the default one.
   */
  method GeneratePropuestaEditorialPDF(filename: Option<string>, wrap: (Copy, Style, int) -> nat)
    returns (doc: Composer, progress: seq<int>, savedAs: string)
    ensures fresh(doc) && doc.Valid() && doc.wrap == wrap
    ensures doc.State() == Run(Layout(Margin, 1, []), ProposalScript(), wrap)
    ensures Contents(doc.ops) ==
      CoverDrawn() + ObjectivesDrawn() + ActionsDrawn() + PricingDrawn() + CalendarDrawn() + PhilosophyDrawn()
    ensures doc.pageCount >= 5
    ensures progress == Milestones && ProgressProtocol(progress)
    ensures savedAs == filename.GetOr(DefaultFilename)
  {
    MilestonesAscend();
    var start := Layout(Margin, 1, []);
    progress := [10];
    doc := new Composer(wrap);
    assert Contents(doc.ops) == [];
    Cover(doc);
    assert Contents(doc.ops) == CoverDrawn();
    ghost var script := CoverScript();
    progress := progress + [20];
    Objectives(doc);
    RunAppend(start, script, ObjectivesScript(), wrap);
    script := script + ObjectivesScript();
    progress := progress + [35];
    Actions(doc);
    RunAppend(start, script, ActionsScript(), wrap);
    script := script + ActionsScript();
    progress := progress + [50];
    Pricing(doc);
    RunAppend(start, script, PricingScript(), wrap);
    script := script + PricingScript();
    progress := progress + [70];
    Calendar(doc);
    RunAppend(start, script, CalendarScript(), wrap);
    script := script + CalendarScript();
    Philosophy(doc);
    RunAppend(start, script, PhilosophyScript(), wrap);
    script := script + PhilosophyScript();
    assert script == ProposalScript();
    progress := progress + [95];
    savedAs := filename.GetOr(DefaultFilename);
    progress := progress + [100];
  }
}
