/**
 * The layout engine shared by the two editorial PDF composers of
 * src/lib/pdf-generator.ts: a vertical cursor `y` (millimetres from the top
 * of the current A4 page), the number of pages, and a log of what was drawn
 * where. Each composer builds its own `Composer`, as each source function
 * builds its own jsPDF document and closure variable `y`.
 */
module PdfLayout {

  // A4 portrait (ISO 216), in millimetres, and the composers' margin.
  const PageWidth: int := 210
  const PageHeight: int := 297
  const Margin: int := 20
  const ContentWidth: int := PageWidth - 2 * Margin
  /** The lowest cursor position a page-checked block may reach. */
  const Bottom: int := PageHeight - Margin
  /** The height available between the two margins. */
  const UsableHeight: int := Bottom - Margin

  /** Room `addStat` and `addHorizontalLine` ask for, and how far they move the cursor. */
  const StatRoom: int := 20
  const StatAdvance: int := 6 + 10
  const RuleRoom: int := 10
  const RuleAdvance: int := 8
  /** The footer line is written at a fixed height, not at the cursor. */
  const FooterY: int := PageHeight - 15

  /** The seven named text styles of `setFont`. */
  datatype Style = Title | H1 | H2 | H3 | Body | Small | Label

  datatype Weight = Normal | Bold
  datatype Font = Font(weight: Weight, size: nat, red: nat, green: nat, blue: nat)

  /** The fixed style table: headings are bold and at least 13 pt, running text is normal and at most 11 pt. */
  function FontOf(s: Style): (f: Font)
    ensures f.weight == Bold <==> s in {Title, H1, H2, H3}
    ensures f.weight == Bold ==> f.size >= 13
    ensures f.weight == Normal ==> f.size <= 11
    ensures f.red <= 255 && f.green <= 255 && f.blue <= 255
  {
    match s
    case Title => Font(Bold, 28, 29, 29, 31)
    case H1 => Font(Bold, 22, 29, 29, 31)
    case H2 => Font(Bold, 16, 29, 29, 31)
    case H3 => Font(Bold, 13, 29, 29, 31)
    case Body => Font(Normal, 11, 80, 80, 80)
    case Small => Font(Normal, 9, 120, 120, 120)
    case Label => Font(Normal, 10, 1, 105, 54)
  }

  /** Names one piece of fixed copy (the copy itself is not part of the model). */
  datatype Copy = Copy(block: string, item: nat)

  /**
   * What the document holds, in drawing order, with the page (0-based) it
   * landed on and its vertical position.
   */
  datatype Op =
    | TextBlock(copy: Copy, style: Style, top: int, height: int, page: nat)  // addText
    | StatBlock(value: Copy, caption: Copy, top: int, page: nat)               // addStat
    | Rule(at: int, page: nat)                                               // addHorizontalLine
    | Inline(copy: Copy, style: Style, at: int, page: nat)                   // pdf.text at a given height
    | Logo(at: int, page: nat)                                               // the cover's filled square

  function TopOf(op: Op): int {
    match op
    case TextBlock(_, _, top, _, _) => top
    case StatBlock(_, _, top, _) => top
    case Rule(at, _) => at
    case Inline(_, _, at, _) => at
    case Logo(at, _) => at
  }

  /**
   * The page-break guarantee of each checked block: a text block no taller
   * than the usable height, a stat and a rule all end above the bottom margin.
   */
  predicate Fits(op: Op) {
    match op
    case TextBlock(_, _, top, height, _) => height <= UsableHeight ==> top + height <= Bottom
    case StatBlock(_, _, top, _) => top + StatRoom <= Bottom
    case Rule(at, _) => at + RuleRoom <= Bottom
    case _ => true
  }

  predicate Placed(op: Op, pageCount: nat) {
    op.page < pageCount && TopOf(op) >= Margin && Fits(op)
  }

  /**
   * The progress protocol: milestones strictly increase and the last one,
   * reported after the file is saved, is 100.
   */
  predicate ProgressProtocol(p: seq<int>) {
    |p| > 0 && p[|p| - 1] == 100 &&
    forall i, j :: 0 <= i < j < |p| ==> p[i] < p[j]
  }

  /** The cursor as a value: vertical offset and number of pages so far. */
  datatype Cursor = Cursor(y: int, pages: nat)

  /**
   * `checkPageBreak(needed)`: a new page (cursor back to the top margin) exactly
   * when the block would run past the bottom margin.
   */
  function BreakFor(c: Cursor, needed: int): (r: Cursor)
    ensures r.pages == c.pages || r.pages == c.pages + 1
    ensures r.pages == c.pages <==> c.y + needed <= Bottom
    ensures r.pages == c.pages ==> r.y == c.y
    ensures r.pages == c.pages + 1 ==> r.y == Margin
    ensures c.y >= Margin ==> r.y >= Margin
    ensures c.y >= Margin && needed <= UsableHeight ==> r.y + needed <= Bottom
  {
    if c.y + needed > Bottom then Cursor(Margin, c.pages + 1) else c
  }

  /** Breaking for `needed` never breaks twice: right after it, a check for the same height is a no-op. */
  lemma BreakSettles(c: Cursor, needed: int)
    requires c.y >= Margin && needed <= UsableHeight
    ensures BreakFor(BreakFor(c, needed), needed) == BreakFor(c, needed)
  {
  }

  /**
   * One call a composer makes, as data: the layout helpers (`addPage`,
   * `checkPageBreak`, `addText`, `addSpacer`, `addHorizontalLine`,
   * `addStat`) and the direct `pdf.text` / `pdf.rect` / `y +=` statements
   * between them. Widths and line heights are the ones written at the call.
   */
  datatype Step =
    | PageStep                                                                   // addPage()
    | CheckStep(needed: int)                                                     // checkPageBreak(needed)
    | CheckLinesStep(copy: Copy, style: Style, width: int, perLine: nat)         // checkPageBreak(lines.length * perLine)
    | TextStep(copy: Copy, style: Style, lineHeight: nat)                        // addText(text, style, lineHeight)
    | SpacerStep(height: nat)                                                    // addSpacer(height)
    | RuleStep                                                                   // addHorizontalLine()
    | StatStep(value: Copy, caption: Copy)                                       // addStat(value, label)
    | WriteStep(copy: Copy, style: Style)                                        // pdf.text(text, x, y)
    | FooterStep(copy: Copy)                                                     // pdf.text(text, margin, pageHeight - 15)
    | LogoStep                                                                   // pdf.rect(margin, y, 8, 8, 'F')
    | AdvanceStep(dy: nat)                                                       // y += dy
    | AdvanceLinesStep(copy: Copy, style: Style, width: int, perLine: nat, extra: nat) // y += lines.length * perLine + extra

  /** The composer's state as a value: cursor, page count and drawing log. */
  datatype Layout = Layout(y: int, pages: nat, ops: seq<Op>)

  /**
   * What one step does to the layout, given the line-wrapping function:
   * the specification the composer's methods are proved against.
   */
  function Apply(l: Layout, step: Step, wrap: (Copy, Style, int) -> nat): (r: Layout)
    requires l.pages >= 1
    ensures r.pages == l.pages || r.pages == l.pages + 1
    ensures step.PageStep? ==> r.pages == l.pages + 1 && r.y == Margin && r.ops == l.ops
    ensures l.ops <= r.ops
  {
    var at := Cursor(l.y, l.pages);
    match step
    case PageStep => Layout(Margin, l.pages + 1, l.ops)
    case CheckStep(needed) =>
      var c := BreakFor(at, needed);
      Layout(c.y, c.pages, l.ops)
    case CheckLinesStep(copy, style, width, perLine) =>
      var c := BreakFor(at, wrap(copy, style, width) * perLine);
      Layout(c.y, c.pages, l.ops)
    case TextStep(copy, style, lineHeight) =>
      var height := wrap(copy, style, ContentWidth) * lineHeight;
      var c := BreakFor(at, height);
      Layout(c.y + height, c.pages, l.ops + [TextBlock(copy, style, c.y, height, c.pages - 1)])
    case SpacerStep(height) => Layout(l.y + height, l.pages, l.ops)
    case RuleStep =>
      var c := BreakFor(at, RuleRoom);
      Layout(c.y + RuleAdvance, c.pages, l.ops + [Rule(c.y, c.pages - 1)])
    case StatStep(value, caption) =>
      var c := BreakFor(at, StatRoom);
      Layout(c.y + StatAdvance, c.pages, l.ops + [StatBlock(value, caption, c.y, c.pages - 1)])
    case WriteStep(copy, style) => Layout(l.y, l.pages, l.ops + [Inline(copy, style, l.y, l.pages - 1)])
    case FooterStep(copy) => Layout(l.y, l.pages, l.ops + [Inline(copy, Small, FooterY, l.pages - 1)])
    case LogoStep => Layout(l.y, l.pages, l.ops + [Logo(l.y, l.pages - 1)])
    case AdvanceStep(dy) => Layout(l.y + dy, l.pages, l.ops)
    case AdvanceLinesStep(copy, style, width, perLine, extra) =>
      Layout(l.y + wrap(copy, style, width) * perLine + extra, l.pages, l.ops)
  }

  /** A script of steps, applied in order. */
  function Run(l: Layout, steps: seq<Step>, wrap: (Copy, Style, int) -> nat): (r: Layout)
    requires l.pages >= 1
    ensures r.pages >= l.pages
    ensures l.ops <= r.ops
    decreases |steps|
  {
    if steps == [] then l else Run(Apply(l, steps[0], wrap), steps[1..], wrap)
  }

  /** Playing two scripts one after the other is playing their concatenation. */
  lemma {:induction false} RunAppend(l: Layout, a: seq<Step>, b: seq<Step>, wrap: (Copy, Style, int) -> nat)
    requires l.pages >= 1
    ensures Run(l, a + b, wrap) == Run(Run(l, a, wrap), b, wrap)
    decreases |a|
  {
    if a != [] {
      assert (a + b)[0] == a[0] && (a + b)[1..] == a[1..] + b;
      RunAppend(Apply(l, a[0], wrap), a[1..], b, wrap);
    } else {
      assert a + b == b;
    }
  }

  /** The script `n` entries long built by `entry(0) + ... + entry(n - 1)`, as a `forEach` over `n` items. */
  function Repeat(n: nat, entry: nat -> seq<Step>): seq<Step> {
    if n == 0 then [] else Repeat(n - 1, entry) + entry(n - 1)
  }

  /** What was drawn, without where: the content of one logged operation. */
  datatype Drawn =
    | DrawnText(copy: Copy, style: Style)
    | DrawnStat(value: Copy, caption: Copy)
    | DrawnRule
    | DrawnInline(copy: Copy, style: Style)
    | DrawnLogo

  function DrawnOf(op: Op): Drawn {
    match op
    case TextBlock(copy, style, _, _, _) => DrawnText(copy, style)
    case StatBlock(value, caption, _, _) => DrawnStat(value, caption)
    case Rule(_, _) => DrawnRule
    case Inline(copy, style, _, _) => DrawnInline(copy, style)
    case Logo(_, _) => DrawnLogo
  }

  /** The content of a drawing log, in order. */
  function Contents(ops: seq<Op>): (r: seq<Drawn>)
    ensures |r| == |ops|
    ensures forall i :: 0 <= i < |ops| ==> r[i] == DrawnOf(ops[i])
  {
    seq(|ops|, i requires 0 <= i < |ops| => DrawnOf(ops[i]))
  }

  /** What a script draws, read off the script alone: one entry per drawing step. */
  function Drawing(steps: seq<Step>): seq<Drawn>
    decreases |steps|
  {
    if steps == [] then []
    else
      var head := match steps[0]
        case TextStep(copy, style, _) => [DrawnText(copy, style)]
        case RuleStep => [DrawnRule]
        case StatStep(value, caption) => [DrawnStat(value, caption)]
        case WriteStep(copy, style) => [DrawnInline(copy, style)]
        case FooterStep(copy) => [DrawnInline(copy, Small)]
        case LogoStep => [DrawnLogo]
        case _ => [];
      head + Drawing(steps[1..])
  }

  /** What a script draws is what its parts draw, in order. */
  lemma {:induction false} DrawingAppend(a: seq<Step>, b: seq<Step>)
    ensures Drawing(a + b) == Drawing(a) + Drawing(b)
    decreases |a|
  {
    if a == [] {
      assert a + b == b;
    } else {
      assert (a + b)[0] == a[0] && (a + b)[1..] == a[1..] + b;
      DrawingAppend(a[1..], b);
    }
  }

  /** The drawings of `n` entries, in order. */
  function RepeatDrawn(n: nat, drawn: nat -> seq<Drawn>): seq<Drawn> {
    if n == 0 then [] else RepeatDrawn(n - 1, drawn) + drawn(n - 1)
  }

  /** A repeated entry draws, entry after entry, what each entry draws. */
  lemma {:induction false} DrawingRepeat(n: nat, entry: nat -> seq<Step>, drawn: nat -> seq<Drawn>)
    requires forall i :: 0 <= i < n ==> Drawing(entry(i)) == drawn(i)
    ensures Drawing(Repeat(n, entry)) == RepeatDrawn(n, drawn)
  {
    if n > 0 {
      DrawingAppend(Repeat(n - 1, entry), entry(n - 1));
      DrawingRepeat(n - 1, entry, drawn);
    }
  }

  /**
   * Whatever the line wrapping, a script appends exactly the content it
   * names, in order, after what was already drawn.
   */
  lemma {:induction false} RunDraws(l: Layout, steps: seq<Step>, wrap: (Copy, Style, int) -> nat)
    requires l.pages >= 1
    ensures Contents(Run(l, steps, wrap).ops) == Contents(l.ops) + Drawing(steps)
    decreases |steps|
  {
    if steps != [] {
      var next := Apply(l, steps[0], wrap);
      RunDraws(next, steps[1..], wrap);
      assert Contents(next.ops) == Contents(l.ops) + Drawing(steps[..1]) by {
        assert steps[..1] == [steps[0]];
        assert Drawing([steps[0]][1..]) == [];
      }
      assert Drawing(steps) == Drawing(steps[..1]) + Drawing(steps[1..]) by {
        assert steps[..1][1..] == [];
      }
    }
  }

  /**
   * The first block drawn between `before` and `after` is a text block at
   * the top margin of a page none of the earlier content is on.
   */
  predicate StartsOnFreshPage(before: Layout, after: Layout) {
    && after.pages > before.pages
    && |after.ops| > |before.ops|
    && after.ops[|before.ops|].TextBlock?
    && after.ops[|before.ops|].top == Margin
    && after.ops[|before.ops|].page >= before.pages
  }

  /**
   * A script that opens a new page and then adds a text block puts that
   * block first, at the top margin of a page after every earlier one.
   */
  lemma OpensPage(l: Layout, steps: seq<Step>, wrap: (Copy, Style, int) -> nat)
    requires l.pages >= 1
    requires |steps| >= 2 && steps[0] == PageStep && steps[1].TextStep?
    ensures StartsOnFreshPage(l, Run(l, steps, wrap))
  {
    var l1 := Apply(l, steps[0], wrap);
    var l2 := Apply(l1, steps[1], wrap);
    assert steps[1..][0] == steps[1] && steps[1..][1..] == steps[2..];
    assert Run(l, steps, wrap) == Run(l2, steps[2..], wrap);
    assert l2.ops[|l.ops|] == Run(l2, steps[2..], wrap).ops[|l.ops|];
  }

  /** One step's drawing, as a single-step script. */
  lemma DrawingFrom(s: seq<Step>, k: nat)
    requires k < |s|
    ensures Drawing(s[k..]) == Drawing([s[k]]) + Drawing(s[k + 1..])
  {
    assert s[k..][0] == s[k];
    assert s[k..][1..] == s[k + 1..];
    assert [s[k]][1..] == [];
  }

  /**
   * A page of either editorial document opens with `addPage`, the section
   * label, the heading and the lead paragraph, each followed by its spacer.
   */
  function SectionHead(section: string): seq<Step> {
    [ PageStep,
      TextStep(Copy(section + ".label", 0), Label, 7), SpacerStep(5),
      TextStep(Copy(section + ".heading", 0), H1, 7), SpacerStep(5),
      TextStep(Copy(section + ".lead", 0), Body, 6), SpacerStep(15) ]
  }

  function HeadDrawn(section: string): seq<Drawn> {
    [ DrawnText(Copy(section + ".label", 0), Label),
      DrawnText(Copy(section + ".heading", 0), H1),
      DrawnText(Copy(section + ".lead", 0), Body) ]
  }

  /** An opening draws the label, the heading and the lead, in that order. */
  lemma HeadDraws(section: string)
    ensures Drawing(SectionHead(section)) == HeadDrawn(section)
  {
    var s := SectionHead(section);
    DrawingFrom(s, 0);
    DrawingFrom(s, 1);
    DrawingFrom(s, 2);
    DrawingFrom(s, 3);
    DrawingFrom(s, 4);
    DrawingFrom(s, 5);
    DrawingFrom(s, 6);
    assert s[7..] == [];
  }

  /** The opening of a page without a lead paragraph: label and heading only. */
  function SectionTitle(section: string): seq<Step> {
    [ PageStep,
      TextStep(Copy(section + ".label", 0), Label, 7), SpacerStep(5),
      TextStep(Copy(section + ".heading", 0), H1, 7), SpacerStep(15) ]
  }

  function TitleDrawn(section: string): seq<Drawn> {
    [ DrawnText(Copy(section + ".label", 0), Label),
      DrawnText(Copy(section + ".heading", 0), H1) ]
  }

  lemma TitleDraws(section: string)
    ensures Drawing(SectionTitle(section)) == TitleDrawn(section)
  {
    var s := SectionTitle(section);
    DrawingFrom(s, 0);
    DrawingFrom(s, 1);
    DrawingFrom(s, 2);
    DrawingFrom(s, 3);
    DrawingFrom(s, 4);
    assert s[5..] == [];
  }

  class Composer {
    /** `pdf.splitTextToSize(text, width)` with the current font: the number of wrapped lines. */
    const wrap: (Copy, Style, int) -> nat
    var y: int
    var pageCount: nat
    var ops: seq<Op>

    ghost predicate Valid()
      reads this
    {
      y >= Margin && pageCount >= 1 &&
      forall i :: 0 <= i < |ops| ==> Placed(ops[i], pageCount)
    }

    function At(): Cursor
      reads this
    {
      Cursor(y, pageCount)
    }

    function State(): Layout
      reads this
    {
      Layout(y, pageCount, ops)
    }

    /** `new jsPDF(...)` with `let y = margin`. */
    constructor (wrap: (Copy, Style, int) -> nat)
      ensures Valid() && this.wrap == wrap
      ensures y == Margin && pageCount == 1 && ops == []
    {
      this.wrap := wrap;
      y := Margin;
      pageCount := 1;
      ops := [];
    }

    method AddPage()
      requires Valid()
      modifies this
      ensures Valid()
      ensures y == Margin && pageCount == old(pageCount) + 1 && ops == old(ops)
    {
      pageCount := pageCount + 1;
      y := Margin;
    }

    method CheckPageBreak(needed: int)
      requires Valid()
      modifies this
      ensures Valid()
      ensures At() == BreakFor(old(At()), needed) && ops == old(ops)
    {
      if y + needed > Bottom {
        AddPage();
      }
    }

    /**
     * `addText`: wrap to the content width, reserve `lines * lineHeight`
     * (breaking first if needed), write the block at the cursor and move
     * below it.
     */
    method AddText(copy: Copy, style: Style, lineHeight: nat)
      requires Valid()
      modifies this
      ensures Valid()
      ensures var height := wrap(copy, style, ContentWidth) * lineHeight;
              var top := BreakFor(old(At()), height);
              && pageCount == top.pages
              && y == top.y + height
              && ops == old(ops) + [TextBlock(copy, style, top.y, height, top.pages - 1)]
    {
      var lines := wrap(copy, style, ContentWidth);
      var totalHeight := lines * lineHeight;
      CheckPageBreak(totalHeight);
      ops := ops + [TextBlock(copy, style, y, totalHeight, pageCount - 1)];
      y := y + totalHeight;
    }

    /** `addSpacer`: moves the cursor only; it may leave it below the bottom margin. */
    method AddSpacer(height: nat)
      requires Valid()
      modifies this
      ensures Valid()
      ensures y == old(y) + height && pageCount == old(pageCount) && ops == old(ops)
    {
      y := y + height;
    }

    method AddHorizontalLine()
      requires Valid()
      modifies this
      ensures Valid()
      ensures var at := BreakFor(old(At()), RuleRoom);
              && pageCount == at.pages
              && y == at.y + RuleAdvance
              && ops == old(ops) + [Rule(at.y, at.pages - 1)]
    {
      CheckPageBreak(RuleRoom);
      ops := ops + [Rule(y, pageCount - 1)];
      y := y + RuleAdvance;
    }

    /** `addStat`: a large value with its label 6 mm below, checked as one 20 mm unit. */
    method AddStat(value: Copy, caption: Copy)
      requires Valid()
      modifies this
      ensures Valid()
      ensures var at := BreakFor(old(At()), StatRoom);
              && pageCount == at.pages
              && y == at.y + StatAdvance
              && ops == old(ops) + [StatBlock(value, caption, at.y, at.pages - 1)]
    {
      CheckPageBreak(StatRoom);
      ops := ops + [StatBlock(value, caption, y, pageCount - 1)];
      y := y + 6;
      y := y + 10;
    }

    /** `pdf.text(..., margin, y)` written directly by a composer: drawn at the cursor, which does not move. */
    method DrawAtCursor(copy: Copy, style: Style)
      requires Valid()
      modifies this
      ensures Valid()
      ensures y == old(y) && pageCount == old(pageCount)
      ensures ops == old(ops) + [Inline(copy, style, old(y), old(pageCount) - 1)]
    {
      ops := ops + [Inline(copy, style, y, pageCount - 1)];
    }

    /** The footer line, written at a fixed height on the current page. */
    method DrawFooter(copy: Copy)
      requires Valid()
      modifies this
      ensures Valid()
      ensures y == old(y) && pageCount == old(pageCount)
      ensures ops == old(ops) + [Inline(copy, Small, FooterY, old(pageCount) - 1)]
    {
      ops := ops + [Inline(copy, Small, FooterY, pageCount - 1)];
    }

    /** The cover's filled square at the cursor. */
    method DrawLogo()
      requires Valid()
      modifies this
      ensures Valid()
      ensures y == old(y) && pageCount == old(pageCount)
      ensures ops == old(ops) + [Logo(old(y), old(pageCount) - 1)]
    {
      ops := ops + [Logo(y, pageCount - 1)];
    }

    /** `y += dy` written directly by a composer. */
    method Advance(dy: nat)
      requires Valid()
      modifies this
      ensures Valid()
      ensures y == old(y) + dy && pageCount == old(pageCount) && ops == old(ops)
    {
      y := y + dy;
    }

    /** One step of a script, by the helper or statement it stands for. */
    method Perform(step: Step)
      requires Valid()
      modifies this
      ensures Valid()
      ensures State() == Apply(old(State()), step, wrap)
    {
      match step
      case PageStep => AddPage();
      case CheckStep(needed) => CheckPageBreak(needed);
      case CheckLinesStep(copy, style, width, perLine) => CheckPageBreak(wrap(copy, style, width) * perLine);
      case TextStep(copy, style, lineHeight) => AddText(copy, style, lineHeight);
      case SpacerStep(height) => AddSpacer(height);
      case RuleStep => AddHorizontalLine();
      case StatStep(value, caption) => AddStat(value, caption);
      case WriteStep(copy, style) => DrawAtCursor(copy, style);
      case FooterStep(copy) => DrawFooter(copy);
      case LogoStep => DrawLogo();
      case AdvanceStep(dy) => Advance(dy);
      case AdvanceLinesStep(copy, style, width, perLine, extra) => Advance(wrap(copy, style, width) * perLine + extra);
    }

    /**
     * Plays a script in order: the new state is the script's `Run` from the
     * old one, so the log gains exactly what the script draws, and a script
     * that opens with `addPage` and a text block starts that block on a
     * fresh page.
     */
    method Play(steps: seq<Step>)
      requires Valid()
      modifies this
      ensures Valid()
      ensures State() == Run(old(State()), steps, wrap)
      ensures Contents(ops) == Contents(old(ops)) + Drawing(steps)
      ensures |steps| >= 2 && steps[0] == PageStep && steps[1].TextStep? ==>
                StartsOnFreshPage(old(State()), State())
    {
      ghost var before := State();
      assert steps[0..] == steps;
      for i := 0 to |steps|
        invariant Valid()
        invariant Run(before, steps, wrap) == Run(State(), steps[i..], wrap)
      {
        assert steps[i..][0] == steps[i] && steps[i..][1..] == steps[i + 1..];
        Perform(steps[i]);
      }
      RunDraws(before, steps, wrap);
      if |steps| >= 2 && steps[0] == PageStep && steps[1].TextStep? {
        OpensPage(before, steps, wrap);
      }
    }
  }

  /**
   * A block started on a fresh page, below the top margin, and stopping at
   * most `UsableHeight` lower does not cross a page boundary: the statement
   * of "no mid-wrap split" for every text block in a composer's log.
   */
  lemma NoTextBlockSplit(ops: seq<Op>, pageCount: nat, i: nat)
    requires forall j :: 0 <= j < |ops| ==> Placed(ops[j], pageCount)
    requires i < |ops| && ops[i].TextBlock? && ops[i].height <= UsableHeight
    ensures Margin <= ops[i].top && ops[i].top + ops[i].height <= Bottom
  {
    assert Placed(ops[i], pageCount);
  }
}
