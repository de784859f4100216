# NORGESTION report site — a verified model of its behavioural core

NORGESTION's report site is a Next.js application. It presents an SEO and
market-positioning report and a commercial proposal, both behind password
gates. It can export them as PDF files. This project models the parts of the
site that compute or keep state. Each part is proved against a
specification:

- **PDF export** (`src/lib/pdf-generator.ts`):
  - the raster exporter, which slices one tall screenshot across A4 pages;
  - the two editorial composers, which lay out the report and the proposal
    with a page-breaking cursor.
  They are modelled in `VisualExport`, `PdfLayout`, `EditorialReport` and
  `EditorialProposal`.
- **Export buttons** (`CTASection`): one export at a time, progress
  forwarding, and cleanup in `finally` (`CtaExport`).
- **Keywords** (`src/data/keywords.ts` and the admin page): the sorted
  ranking, and the administration page's list, filter, deletion, draft
  and counters (`Keywords`, `KeywordsAdmin`).
- **Leadership slider**: circular navigation, the transition lock,
  autoplay, the lightbox, and the counter and progress bar
  (`LeadershipSlider`).
- **Navbar**: scroll-spy section selection, dark-section detection and
  link highlighting (`Navbar`).
- **Charts**: donut segments, bars scaled to a maximum and numbered rows
  (`Proportions`, `AnalysisCharts`, `AnalysisBackup`, `Ranking`).
- **Password gates**, both variants (`PasswordGate`).

Components that update state in place are classes whose methods state the
whole new state:

- the editorial `Composer`;
- the `Browser` page state;
- the CTA section;
- the keyword page;
- the slider;
- the navbar;
- the password `Gate` and its `LocalStorage`.

Pure computations are functions, and the loops of the source are methods
with invariants.

Some facts about the code that the model follows:

- **Raster page count.** The slicing loop of `generateVisualPDF`
  (`src/lib/pdf-generator.ts:97-111`) adds a page while any height is
  left. There is no minimum-slice threshold: any overflow past a page,
  however thin, costs a whole page (`VisualExport.ThinOverflowAddsPage`).
- **Overflow style only.** The raster exporter saves the body's overflow
  style (`src/lib/pdf-generator.ts:28`), sets it to `visible` (line 31) and
  restores it in `finally` (lines 118-120). It puts no other marker on
  the page.
- **Cursor bound.** `addSpacer` (`src/lib/pdf-generator.ts:206-208`) moves
  the cursor with no page check, so the cursor can pass the bottom margin.
  What holds, and is proved, is narrower:
  - the cursor is never above the top margin;
  - every block added by `addText`, `addStat` or `addHorizontalLine` ends
    above the bottom margin (a text block when it is no taller than a
    page).
  Copy that a composer writes straight at the cursor with `pdf.text`
  carries no such guarantee. Its room is the fixed height the composer
  asked for, which need not cover what follows. For example, an
  executive-summary point reserves 25 mm (line 261) for `lines * 5 + 14` mm
  of copy (lines 263-270).
- **Keyword data is not mutated.** `getSortedKeywords`
  (`src/data/keywords.ts:151`) sorts a copy. In a model on values this
  holds by construction.

## Model

| member | source | states |
|---|---|---|
| PdfLayout.FontOf | src/lib/pdf-generator.ts:157-195 | The style table: headings are bold and at least 13 pt, running text is normal and at most 11 pt, and every colour channel is at most 255. |
| PdfLayout.BreakFor | src/lib/pdf-generator.ts:151-155 | A new page is started exactly when `y + needed` passes the bottom margin. It adds exactly one page and resets the cursor to the top margin; otherwise nothing moves. A block no taller than a page then fits. |
| PdfLayout.BreakSettles | src/lib/pdf-generator.ts:151-155 | Checking again for the same height right after a break changes nothing. |
| PdfLayout.Apply | src/lib/pdf-generator.ts:146-226 | What one helper call or direct statement does to cursor, page count and log: at most one page is added; `addPage` adds exactly one, resets the cursor to the margin and draws nothing; the log is only ever appended to. |
| PdfLayout.Run | src/lib/pdf-generator.ts:228-437 | A script of calls run in order never loses a page or a log entry. |
| PdfLayout.RunAppend | src/lib/pdf-generator.ts:228-437 | Running two scripts one after the other is running their concatenation, so a composer can be read page by page. |
| PdfLayout.DrawingAppend | src/lib/pdf-generator.ts:228-437 | What a concatenation of scripts draws is what each part draws, in order. |
| PdfLayout.DrawingRepeat | src/lib/pdf-generator.ts:260-271 | A `forEach` over `n` items draws, item after item, what each item's calls draw. |
| PdfLayout.RunDraws | src/lib/pdf-generator.ts:146-226 | Whatever the line wrapping, running a script appends to the log exactly the content the script names, in order, after what was already there. |
| PdfLayout.OpensPage | src/lib/pdf-generator.ts:146-149 | A script that starts with `addPage` and then `addText` draws that text first, at the top margin of a page after all earlier content. |
| PdfLayout.HeadDraws | src/lib/pdf-generator.ts:278-285 | A section opening draws its label, heading and lead paragraph, in that order, and nothing else. |
| PdfLayout.TitleDraws | src/lib/pdf-generator.ts:686-691 | An opening without a lead paragraph draws its label and heading, in that order. |
| PdfLayout.Composer.constructor | src/lib/pdf-generator.ts:133-143 | A document starts with one page, the cursor at the top margin, nothing drawn, and the composer invariant holding. |
| PdfLayout.Composer.AddPage | src/lib/pdf-generator.ts:146-149 | Adds one page and resets the cursor to the margin. |
| PdfLayout.Composer.CheckPageBreak | src/lib/pdf-generator.ts:151-155 | The new cursor is `BreakFor` of the old one, and nothing is drawn. |
| PdfLayout.Composer.AddText | src/lib/pdf-generator.ts:197-204 | Reserves `lines * lineHeight` (breaking first if needed), records the block where it landed, and moves the cursor just below it. |
| PdfLayout.Composer.AddSpacer | src/lib/pdf-generator.ts:206-208 | Only moves the cursor down. |
| PdfLayout.Composer.AddHorizontalLine | src/lib/pdf-generator.ts:210-216 | Checks for 10 mm, draws the rule at the resulting cursor, and moves 8 mm down. |
| PdfLayout.Composer.AddStat | src/lib/pdf-generator.ts:218-226 | Checks for 20 mm as one unit, draws value and label there, and moves 16 mm down. |
| PdfLayout.Composer.DrawAtCursor | src/lib/pdf-generator.ts:262-265 | Copy written with `pdf.text` at the cursor is logged at the cursor on the current page; cursor and page count do not move. |
| PdfLayout.Composer.DrawFooter | src/lib/pdf-generator.ts:434-437 | The footer is drawn at the fixed height 282 mm on the current page, and the cursor does not move. |
| PdfLayout.Composer.DrawLogo | src/lib/pdf-generator.ts:232-234 | The cover's filled square is logged at the cursor on the current page; nothing else moves. |
| PdfLayout.Composer.Advance | src/lib/pdf-generator.ts:266 | `y += dy` moves the cursor down by `dy` and changes nothing else. |
| PdfLayout.Composer.Perform | src/lib/pdf-generator.ts:146-226 | Each helper or direct statement, performed on the composer, leaves exactly the state `Apply` gives, and keeps the composer invariant. |
| PdfLayout.Composer.Play | src/lib/pdf-generator.ts:228-437 | Playing a script leaves the state its `Run` gives, appends exactly what the script draws, and a script opening with `addPage` and `addText` starts on a fresh page. |
| PdfLayout.NoTextBlockSplit | src/lib/pdf-generator.ts:197-204 | Every recorded text block no taller than a page starts below the top margin and ends above the bottom margin, so it is never split. |
| EditorialReport.MilestonesAscend | src/lib/pdf-generator.ts:273-443 | The report reports 10, 30, 50, 70, 85, 95 and 100, in that order: strictly increasing and ending at 100. |
| EditorialReport.CoverDraws | src/lib/pdf-generator.ts:228-248 | The cover draws the logo square, the `NORGESTION` label, the three title lines, the lead paragraph and a rule, in that order. |
| EditorialReport.SummaryHeadingDraws | src/lib/pdf-generator.ts:251-252 | The executive summary's heading is one `h2` text block. |
| EditorialReport.SummaryPointDraws | src/lib/pdf-generator.ts:260-271 | A summary point writes its number (label), title (`h3`) and description (body) at the cursor, in that order. |
| EditorialReport.ExecutiveSummaryDraws | src/lib/pdf-generator.ts:250-271 | The executive summary draws its heading, then the three points in order. |
| EditorialReport.OverviewStatDraws | src/lib/pdf-generator.ts:295-300 | An overview stat draws its value with its label, then its description. |
| EditorialReport.DisclaimerDraws | src/lib/pdf-generator.ts:302-307 | The data disclaimer is written once, in the small style. |
| EditorialReport.OverviewDraws | src/lib/pdf-generator.ts:275-307 | Page 01 draws its opening, the four stats in order and the disclaimer. |
| EditorialReport.PositioningStatDraws | src/lib/pdf-generator.ts:330-332 | A positioning stat draws its value with its label. |
| EditorialReport.HighlightedKeywordsDraws | src/lib/pdf-generator.ts:334-353 | The keyword block draws its `h3` heading, the joined keyword list at the cursor, then the AI-visibility heading and paragraph. |
| EditorialReport.PositioningDraws | src/lib/pdf-generator.ts:311-353 | Page 02 draws its opening, the three stats in order and the keyword block. |
| EditorialReport.ContactsHeadingDraws | src/lib/pdf-generator.ts:369-370 | The contacts heading is one `h2` text block. |
| EditorialReport.LeadTypeDraws | src/lib/pdf-generator.ts:379-384 | A lead type draws its `h3` title and its description. |
| EditorialReport.ReachDraws | src/lib/pdf-generator.ts:386-389 | The reach block draws its heading and its paragraph. |
| EditorialReport.ImpactDraws | src/lib/pdf-generator.ts:357-389 | Page 03 draws its opening, the contacts heading, the four lead types in order and the reach block. |
| EditorialReport.TraditionalHeadingDraws | src/lib/pdf-generator.ts:405-406 | The traditional-model heading is one `h2` text block. |
| EditorialReport.TraditionalPointDraws | src/lib/pdf-generator.ts:413-415 | Each traditional-model point is one body text block. |
| EditorialReport.FullStackHeadingDraws | src/lib/pdf-generator.ts:417-419 | The NORGESTION-model heading is one `h2` text block. |
| EditorialReport.FullStackPointDraws | src/lib/pdf-generator.ts:426-428 | Each NORGESTION-model point is one body text block. |
| EditorialReport.ClosingDraws | src/lib/pdf-generator.ts:430-437 | The closing draws a rule, the closing paragraph and the footer line, in that order. |
| EditorialReport.ComparisonDraws | src/lib/pdf-generator.ts:393-437 | Page 04 draws its opening, the traditional heading and four points, the NORGESTION heading and four points, then the closing. |
| EditorialReport.Cover | src/lib/pdf-generator.ts:228-248 | The cover leaves exactly the layout its script runs to, and appends exactly `CoverDrawn`. |
| EditorialReport.ExecutiveSummary | src/lib/pdf-generator.ts:250-271 | The executive summary leaves the layout its script runs to and appends exactly its heading and three points. |
| EditorialReport.Overview | src/lib/pdf-generator.ts:275-307 | Page 01 leaves the layout its script runs to, appends exactly its opening, four stats and disclaimer, and its label is the first block on a fresh page. |
| EditorialReport.Positioning | src/lib/pdf-generator.ts:311-353 | Page 02 leaves the layout its script runs to, appends exactly its opening, three stats and keyword block, and starts on a fresh page. |
| EditorialReport.Impact | src/lib/pdf-generator.ts:357-389 | Page 03 leaves the layout its script runs to, appends exactly its opening, contacts heading, four leads and reach block, and starts on a fresh page. |
| EditorialReport.Comparison | src/lib/pdf-generator.ts:393-437 | Page 04 leaves the layout its script runs to, appends exactly both point lists, the closing and the footer after its opening, and starts on a fresh page. |
| EditorialReport.GenerateEditorialPDF | src/lib/pdf-generator.ts:126-444 | A fresh valid document of at least five pages whose state is the whole report script run from an empty page, and whose log holds exactly the six parts' content in order. Progress is 10, 30, 50, 70, 85, 95, 100. The file is saved under the given name or `NORGESTION-Informe-Texto-2025.pdf`. |
| EditorialProposal.MilestonesAscend | src/lib/pdf-generator.ts:563-782 | The proposal reports 10, 20, 35, 50, 70, 95 and 100, in that order: strictly increasing and ending at 100. |
| EditorialProposal.CoverDraws | src/lib/pdf-generator.ts:541-561 | The cover draws the logo square, the label, three title lines, the lead paragraph and a rule, in that order. |
| EditorialProposal.NumberedEntryDraws | src/lib/pdf-generator.ts:600-612 | A numbered entry writes its number (label), title and description (body) at the cursor, in that order. |
| EditorialProposal.ObjectivesDraws | src/lib/pdf-generator.ts:565-612 | Page 2 draws its opening and the four objectives in order, each with an `h2` title. |
| EditorialProposal.HypothesisDraws | src/lib/pdf-generator.ts:675-679 | The hypothesis block draws a rule, its `h3` heading and its paragraph. |
| EditorialProposal.ActionsDraws | src/lib/pdf-generator.ts:616-679 | Page 3 draws its opening, the six actions in order (each with an `h3` title) and the hypothesis block. |
| EditorialProposal.ServicesHeadingDraws | src/lib/pdf-generator.ts:693-694 | The services heading is one `h2` text block. |
| EditorialProposal.ServiceDraws | src/lib/pdf-generator.ts:705-715 | A service draws its `h3` title as a text block, then writes its concept (small) and detail (body) at the cursor. |
| EditorialProposal.MonthlyFeeDraws | src/lib/pdf-generator.ts:717-731 | The fee block draws a rule, the `h2` caption, the `h1` amount and the small disclaimer, in that order. |
| EditorialProposal.PricingDraws | src/lib/pdf-generator.ts:683-731 | Page 4 draws its label and heading, the services heading, the six services in order and the fee block. |
| EditorialProposal.CalendarStepDraws | src/lib/pdf-generator.ts:750-758 | A calendar step writes its period at the cursor, then draws its `h2` title and body description. |
| EditorialProposal.CalendarDraws | src/lib/pdf-generator.ts:735-758 | Page 5 draws its label and heading and the two steps in order. |
| EditorialProposal.PhilosophyDraws | src/lib/pdf-generator.ts:760-776 | The closing draws a rule, the philosophy label, heading, stance and paragraph, and the footer line. |
| EditorialProposal.Cover | src/lib/pdf-generator.ts:541-561 | The cover leaves exactly the layout its script runs to and appends exactly `CoverDrawn`. |
| EditorialProposal.Objectives | src/lib/pdf-generator.ts:565-612 | Page 2 leaves the layout its script runs to, appends exactly its opening and four objectives, and its label is the first block on a fresh page. |
| EditorialProposal.Actions | src/lib/pdf-generator.ts:616-679 | Page 3 leaves the layout its script runs to, appends exactly its opening, six actions and the hypothesis, and starts on a fresh page. |
| EditorialProposal.Pricing | src/lib/pdf-generator.ts:683-731 | Page 4 leaves the layout its script runs to, appends exactly its heading, six services and the fee block, and starts on a fresh page. |
| EditorialProposal.Calendar | src/lib/pdf-generator.ts:735-758 | Page 5 leaves the layout its script runs to, appends exactly its heading and the two steps, and starts on a fresh page. |
| EditorialProposal.Philosophy | src/lib/pdf-generator.ts:760-776 | The closing leaves the layout its script runs to and appends exactly the philosophy blocks and the footer. |
| EditorialProposal.GeneratePropuestaEditorialPDF | src/lib/pdf-generator.ts:449-783 | A fresh valid document of at least five pages whose state is the whole proposal script run from an empty page, and whose log holds exactly the six parts' content in order. Progress is 10, 20, 35, 50, 70, 95, 100. The file is saved under the given name or `NORGESTION-Propuesta-2026.pdf`. |
| VisualExport.ImageHeight | src/lib/pdf-generator.ts:87-89 | The image scaled to 210 mm keeps the canvas's aspect ratio: `h * width == height * 210`, and `h >= 0`. |
| VisualExport.PagesFor | src/lib/pdf-generator.ts:97-111 | The page count is at least 1 and covers the image. One page fewer would not cover it. |
| VisualExport.PagesForLeast | src/lib/pdf-generator.ts:97-111 | No smaller page count covers the image, so there is never a trailing blank page. |
| VisualExport.ThinOverflowAddsPage | src/lib/pdf-generator.ts:104-111 | An image taller than one page and at most two pages tall takes exactly two pages. |
| VisualExport.SlicePages | src/lib/pdf-generator.ts:97-111 | The slicing loop places the image at `-297 * k` on page `k`, for exactly `PagesFor(h)` pages. |
| VisualExport.Browser.constructor | src/lib/pdf-generator.ts:20-28 | The page starts with its set of element ids and its body overflow style, nothing written and nothing downloaded. |
| VisualExport.Browser.GenerateVisualPDF | src/lib/pdf-generator.ts:14-121 | A missing element fails with nothing changed and no progress. Otherwise the overflow style is set to `visible` and restored whatever happens. A failed capture reports 10, 20. A successful one reports 10, 20, 70, 90, 100 and saves the sliced raster under the given name or `NORGESTION-Informe-2025.pdf`. |
| CtaExport.CtaSection.constructor | src/components/sections/CTASection.tsx:26-32 | Both exports start idle with progress 0. The target id and filename default to `pdf-content` and `NORGESTION-Informe-2025.pdf`. |
| CtaExport.CtaSection.ButtonsDisabled | src/components/sections/CTASection.tsx:106 | Both buttons are disabled exactly while one of the two exports runs (never both at once). |
| CtaExport.CtaSection.HandleVisualPDF | src/components/sections/CTASection.tsx:34-44 | While either export runs, nothing happens. Otherwise the visual flag is raised, its progress is reset, and the visual generator is requested for the configured target and filename. |
| CtaExport.CtaSection.HandleTextPDF | src/components/sections/CTASection.tsx:53-63 | While either export runs, nothing happens. Otherwise the text flag is raised and the report is requested under the fixed name `NORGESTION-Informe-Texto-2025.pdf`. |
| CtaExport.CtaSection.VisualProgress | src/components/sections/CTASection.tsx:43 | A progress callback sets the visual progress and nothing else. |
| CtaExport.CtaSection.TextProgress | src/components/sections/CTASection.tsx:62 | A progress callback sets the text progress and nothing else. |
| CtaExport.CtaSection.VisualSettled | src/components/sections/CTASection.tsx:47-50 | `finally`: the visual export is idle again with progress 0. |
| CtaExport.CtaSection.TextSettled | src/components/sections/CTASection.tsx:66-69 | `finally`: the text export is idle again with progress 0. |
| CtaExport.CtaSection.TextExport | src/components/sections/CTASection.tsx:53-70 | A text-button click and the whole report export. The file is saved under the fixed name, and both buttons are enabled again. A click while an export runs is refused and leaves both flags and both progress values as they were. |
| CtaExport.CtaSection.VisualExportRun | src/components/sections/CTASection.tsx:34-51 | A visual-button click and the whole raster export. The section ends idle, the page's overflow style is unchanged, and a successful raster is downloaded under the section's filename. A failed capture downloads nothing. A click while an export runs is refused and leaves both flags, both progress values and the downloads as they were. |
| Keywords.TermCompare | src/data/keywords.ts:155 | The term comparison is in {-1, 0, 1}, and 0 exactly for equal terms. |
| Keywords.TermCompareAntisymmetric | src/data/keywords.ts:155 | Swapping the terms negates the comparison. |
| Keywords.TermCompareTransitive | src/data/keywords.ts:155 | The term order is transitive. |
| Keywords.CompareAntisymmetric | src/data/keywords.ts:151-156 | The comparator is antisymmetric, and it is 0 only for identical keywords. |
| Keywords.CompareTransitive | src/data/keywords.ts:151-156 | The comparator is transitive. |
| Keywords.CompareTotal | src/data/keywords.ts:151-156 | Any two keywords are ordered one way or the other. |
| Keywords.SortedUnique | src/data/keywords.ts:150-156 | Two sorted arrangements of the same keywords are identical, so the sort's result does not depend on the sort algorithm. |
| Keywords.GetSortedKeywords | src/data/keywords.ts:150-156 | A permutation of the data. Positions never decrease, and equal positions are ordered by term. |
| Keywords.SortedIsResult | src/data/keywords.ts:150-156 | Any sorted permutation of the data is the result. |
| Keywords.SortIdempotent | src/data/keywords.ts:150-156 | Sorting the sorted list changes nothing. |
| Text.Lower | src/app/admin/keywords/page.tsx:34 | `toLowerCase` keeps the length and folds each character by `LowerChar`. |
| Text.LowerChar | src/app/admin/keywords/page.tsx:34 | The ASCII, Latin-1 and Latin Extended-A capitals map to their small letters; every other character is kept. |
| Text.LowerCharIdempotent | src/app/admin/keywords/page.tsx:34 | Folding a folded character changes nothing. |
| Text.LowerSpanish | src/app/admin/keywords/page.tsx:34 | `ESPAÑA` folds to `españa`, and the accented capitals and `Ñ` fold to their small letters. |
| Text.LowerIdempotent | src/app/admin/keywords/page.tsx:34 | Lower-casing twice is lower-casing once. |
| Text.ParseInt | src/app/admin/keywords/page.tsx:100 | `parseInt` yields no number exactly when there are no leading digits. |
| Text.ParseIntRoundTrip | src/app/admin/keywords/page.tsx:100 | A number's decimal form parses back to the number. |
| Text.NatToString | src/components/sections/LeadershipSection.tsx:156-158 | `String(n)` is all digits, reads back as `n`, and has no leading zero. |
| KeywordsAdmin.Filtered | src/app/admin/keywords/page.tsx:33-35 | A keyword is shown exactly when it is in the list and its lower-cased term contains the lower-cased filter. |
| KeywordsAdmin.AccentedFilterMatches | src/app/admin/keywords/page.tsx:33-35 | The filter `ESPAÑA` shows the keyword `consultora m&a españa`. |
| KeywordsAdmin.FilteredAppend | src/app/admin/keywords/page.tsx:33-35 | Filtering keeps list order: it distributes over concatenation. |
| KeywordsAdmin.FilteredEmpty | src/app/admin/keywords/page.tsx:33-35 | An empty search box shows every keyword. |
| KeywordsAdmin.FilteredCaseInsensitive | src/app/admin/keywords/page.tsx:33-35 | Lower-casing the filter first changes nothing. |
| KeywordsAdmin.Without | src/app/admin/keywords/page.tsx:49 | An in-range index removes exactly that element, with the others shifted down in order. An out-of-range index (such as `indexOf`'s -1) changes nothing. |
| KeywordsAdmin.WithoutMultiset | src/app/admin/keywords/page.tsx:49 | Deletion removes exactly one copy of the deleted keyword. |
| KeywordsAdmin.IndexOf | src/app/admin/keywords/page.tsx:176 | `indexOf` is -1 exactly for an absent keyword; otherwise it is the first position holding it. |
| KeywordsAdmin.CountWhereMonotone | src/app/admin/keywords/page.tsx:62-66 | A weaker condition never counts fewer keywords. |
| KeywordsAdmin.CountWhereAppend | src/app/admin/keywords/page.tsx:62-66 | Appending a keyword adds one to a count exactly when it qualifies. |
| KeywordsAdmin.Stats | src/app/admin/keywords/page.tsx:62-66 | The total is the list length, and the #1 count ≤ the top-5 count ≤ the total. |
| KeywordsAdmin.StatsAppend | src/app/admin/keywords/page.tsx:62-66 | Adding a keyword adds one to the total and to each counter it qualifies for. |
| KeywordsAdmin.ParsePosition | src/app/admin/keywords/page.tsx:100 | `parseInt(v) \|\| 1` is never 0. It is the parsed value when that is a non-zero number, and 1 otherwise. |
| KeywordsAdmin.ParsePositionRoundTrip | src/app/admin/keywords/page.tsx:100 | A typed position is read back unchanged, unless it is 0, which becomes 1. |
| KeywordsAdmin.AdminKeywords.constructor | src/app/admin/keywords/page.tsx:27-31 | The page starts with the keyword data, an empty filter, a closed dialog and the draft `{term: '', position: 1}`. |
| KeywordsAdmin.AdminKeywords.FilteredKeywords | src/app/admin/keywords/page.tsx:33-35 | The table shows exactly the matching keywords. |
| KeywordsAdmin.AdminKeywords.AddKeyword | src/app/admin/keywords/page.tsx:37-46 | An empty term is refused with `El término es requerido` and nothing changes. Otherwise the draft is appended, the draft is reset, the dialog closes, and `Keyword añadida` is shown. |
| KeywordsAdmin.AdminKeywords.DeleteKeyword | src/app/admin/keywords/page.tsx:48-52 | The list becomes the list without that index, and `Keyword eliminada` is shown. |
| KeywordsAdmin.AdminKeywords.DeleteRow | src/app/admin/keywords/page.tsx:176 | Deleting a shown row removes exactly one copy of its keyword, the first one in the list. |
| KeywordsAdmin.AdminKeywords.EditTerm | src/app/admin/keywords/page.tsx:89 | Only the draft's term changes. |
| KeywordsAdmin.AdminKeywords.EditPosition | src/app/admin/keywords/page.tsx:100 | Only the draft's position changes, to the parsed value, which is never 0. |
| KeywordsAdmin.AdminKeywords.SetFilter | src/app/admin/keywords/page.tsx:142 | Only the filter changes. |
| KeywordsAdmin.AdminKeywords.SetDialogOpen | src/app/admin/keywords/page.tsx:76 | Only the dialog flag changes. |
| LeadershipSlider.NextIndex | src/components/sections/LeadershipSection.tsx:230-233 | Next moves one slide forward and wraps from the last slide to the first. |
| LeadershipSlider.PrevIndex | src/components/sections/LeadershipSection.tsx:235-238 | Prev moves one slide back and wraps from the first slide to the last. |
| LeadershipSlider.PrevUndoesNext | src/components/sections/LeadershipSection.tsx:230-238 | Next and prev undo each other. |
| LeadershipSlider.NextTimesNoWrap | src/components/sections/LeadershipSection.tsx:230-233 | Before wrapping, `k` nexts move `k` slides. |
| LeadershipSlider.NextTimesCompose | src/components/sections/LeadershipSection.tsx:230-233 | `a` nexts then `b` nexts are `a + b` nexts. |
| LeadershipSlider.FullCycle | src/components/sections/LeadershipSection.tsx:241-245 | As many nexts as there are images (autoplay's full cycle) return to the start. |
| LeadershipSlider.KeyAction | src/components/sections/LeadershipSection.tsx:68-75 | A closed lightbox ignores keys. An open one maps Escape, ArrowRight and ArrowLeft to close, next and prev, each exactly for its key. |
| LeadershipSlider.CounterField | src/components/sections/LeadershipSection.tsx:156-158 | `padStart(2, '0')` gives at least two digits that still read as the number: `String(k)` itself from 10 on, and `'0'` before it below 10. |
| LeadershipSlider.Counter | src/components/sections/LeadershipSection.tsx:156-158 | The counter reads the 1-based current slide and the number of slides. |
| LeadershipSlider.ProgressWidth | src/components/sections/LeadershipSection.tsx:344 | The progress bar is in (0, 100] and is full exactly on the last slide. |
| LeadershipSlider.ProgressGrows | src/components/sections/LeadershipSection.tsx:344 | A later slide has a wider progress bar. |
| LeadershipSlider.ImageSlider.constructor | src/components/sections/LeadershipSection.tsx:218-221 | The slider starts at slide 0, not transitioning, not paused, and with the lightbox closed. |
| LeadershipSlider.ImageSlider.GoToSlide | src/components/sections/LeadershipSection.tsx:223-228 | During a transition nothing moves. Otherwise the slider jumps to the index and a transition starts. |
| LeadershipSlider.ImageSlider.TransitionEnd | src/components/sections/LeadershipSection.tsx:227 | The 500 ms timer only ends the transition. |
| LeadershipSlider.ImageSlider.GoToNext | src/components/sections/LeadershipSection.tsx:230-233 | Moves to `NextIndex` unless a transition is running. |
| LeadershipSlider.ImageSlider.GoToPrev | src/components/sections/LeadershipSection.tsx:235-238 | Moves to `PrevIndex` unless a transition is running. |
| LeadershipSlider.ImageSlider.AutoplayActive | src/components/sections/LeadershipSection.tsx:241-245 | Autoplay runs exactly while the slider is neither hovered nor showing the lightbox. |
| LeadershipSlider.ImageSlider.AutoplayTick | src/components/sections/LeadershipSection.tsx:241-245 | An active tick is `goToNext`: it moves to the next slide unless a transition runs, and a transition is running afterwards. An inactive tick changes nothing. |
| LeadershipSlider.ImageSlider.MouseEnter | src/components/sections/LeadershipSection.tsx:256 | Hovering pauses autoplay. |
| LeadershipSlider.ImageSlider.MouseLeave | src/components/sections/LeadershipSection.tsx:257 | Leaving resumes it. |
| LeadershipSlider.ImageSlider.OpenLightbox | src/components/sections/LeadershipSection.tsx:247-249 | Opening the lightbox stops autoplay, keeps the slide, and shows the current image with its counter. |
| LeadershipSlider.ImageSlider.CloseLightbox | src/components/sections/LeadershipSection.tsx:360 | Closing keeps the slide and the lightbox renders nothing. |
| LeadershipSlider.ImageSlider.LightboxKey | src/components/sections/LeadershipSection.tsx:68-75 | A closed lightbox, or any other key, changes nothing. Escape closes it (nothing rendered) and leaves slide and lock alone. The arrows move to the next or previous slide unless a transition runs, and leave a transition running. |
| LeadershipSlider.ImageSlider.LightboxView | src/components/sections/LeadershipSection.tsx:86-158 | A closed lightbox renders nothing. An open one shows the current slide's image and the counter for that slide and the number of images. |
| Navbar.Candidates | src/components/layout/Navbar.tsx:32-34 | The watched section ids are exactly the targets of the `#` links. |
| Navbar.CandidatesOne | src/components/layout/Navbar.tsx:32-34 | One item gives its target when it is a `#` link and nothing otherwise. |
| Navbar.CandidatesAppend | src/components/layout/Navbar.tsx:32-34 | The ids keep item order: the candidates of a concatenation are the concatenated candidates. |
| Navbar.LastReached | src/components/layout/Navbar.tsx:36-45 | Finds the last section in order whose element exists with its top at most 100 px, with none reached after it, or -1. The empty id of a bare `#` link has no element, so it is never reached. |
| Navbar.ScrollSelection | src/components/layout/Navbar.tsx:36-46 | The reversed loop selects the last reached section, or `''`. |
| Navbar.NavbarState.constructor | src/components/layout/Navbar.tsx:20-24 | The navbar starts with the menu closed and no active section. The dark sections default to `['', 'liderazgo', 'competitivo']`. |
| Navbar.NavbarState.HandleScroll | src/components/layout/Navbar.tsx:31-47 | The active section becomes `ActiveSection` of the hash targets: one of them that has been reached, or `''`. |
| Navbar.NavbarState.ToggleMenu | src/components/layout/Navbar.tsx:107 | The hamburger button flips the menu flag. |
| Navbar.NavbarState.MobileLinkClicked | src/components/layout/Navbar.tsx:148 | A mobile link closes the menu. |
| Navbar.NavbarState.IsDarkSection | src/components/layout/Navbar.tsx:28 | The section is dark exactly when the active section is one of the dark sections. |
| Navbar.NavbarState.IsActive | src/components/layout/Navbar.tsx:54-59 | A `#` link is active exactly when it is `#` followed by the active section; any other link exactly when it is the current path. |
| Navbar.HashLinkActive | src/components/layout/Navbar.tsx:54-59 | A `#id` link is highlighted exactly when `id` is the active section. |
| Navbar.NoSectionIsDark | src/components/layout/Navbar.tsx:20-28 | With the default list, the top of the page (no active section) counts as dark. |
| Proportions.SumSnoc | src/components/sections/AnalysisSection.tsx:237 | The left fold `reduce((sum, x) => sum + x, 0)` adds each new value to the sum so far. |
| Proportions.SumNonNegative | src/components/sections/AnalysisSection.tsx:237 | The sum of non-negative values is non-negative. |
| Proportions.SumShares | src/components/sections/AnalysisSection.tsx:237-260 | Taking shares of a total commutes with summing. |
| Proportions.SharesOfTotal | src/components/sections/AnalysisSection.tsx:237-260 | In exact arithmetic, the shares of the whole sum add up to 100. |
| Proportions.DonutLayout | src/components/sections/AnalysisSection.tsx:237-260 | The `map` with its running `cumulative`: segment `k` has length `p / total * 100` and starts at 100 minus the lengths before it. An empty list gives no segments. |
| Proportions.DonutCloses | src/components/sections/AnalysisSection.tsx:237-260 | In exact arithmetic, the segments close the circle: the lengths sum to 100, the first starts at 100, and the last ends at 0. |
| Proportions.DonutOffsetsDescend | src/components/sections/AnalysisSection.tsx:257-260 | With non-negative data, each segment starts where the previous one ends. |
| Proportions.DashPattern | src/components/sections/AnalysisSection.tsx:271 | A dash and its gap make up the whole circumference of 100. |
| Proportions.PercentOf | src/components/sections/AnalysisSection.tsx:405 | The percentage `p` of a maximum satisfies `p * max == value * 100`, and the maximum itself is 100. |
| Proportions.Max | src/components/sections/AnalysisSection.tsx:455 | `Math.max` is an element of the list and at least every element. |
| Proportions.BarsWithinScale | src/components/sections/AnalysisSection.tsx:405 | Against the maximum of non-negative data, every bar is within [0, 100], and a maximal one is exactly 100. |
| Proportions.Numbered | src/components/sections/AnalysisSection.backup.tsx:348-354 | Rows keep input order and are labelled `index + 1`. |
| Proportions.NumberedRanks | src/components/sections/RankingSection.tsx:123 | Labels strictly increase from 1 to the number of rows. |
| AnalysisCharts.DrawnStroke | src/components/sections/AnalysisSection.tsx:271 | Before the chart is visible each segment has dash 0 and gap 100. Once visible, the dash is the segment length. Dash and gap always sum to 100. |
| AnalysisCharts.PremiumDonutChart | src/components/sections/AnalysisSection.tsx:237-276 | Each segment is drawn with its share of the total, starting after the segments before it, and gated by visibility. |
| AnalysisCharts.MaxPercentage | src/components/sections/AnalysisSection.tsx:455 | The largest country percentage is one of them and at least every one. |
| AnalysisCharts.CountryBarWidth | src/components/sections/AnalysisSection.tsx:405-420 | Before the bar is visible its width is 0. After, it is the percentage of the maximum. |
| AnalysisCharts.CountryBars | src/components/sections/AnalysisSection.tsx:388-497 | One bar per country, in order. Bar `i` has the width `CountryBarWidth` gives against the largest country, under its own visibility flag. Each `CountryBar` has its own observer and an `index * 100` ms delay, so bars switch on one by one. An empty list gives no bars. |
| AnalysisCharts.CountryBarsFit | src/components/sections/AnalysisSection.tsx:405-420 | Every bar that `CountryBars` draws fits the track, and the largest country's bar fills it once that bar is visible. |
| AnalysisBackup.DonutChart | src/components/sections/AnalysisSection.backup.tsx:28-56 | The earlier donut draws every segment at full length, with the same layout. |
| AnalysisBackup.CountryRows | src/components/sections/AnalysisSection.backup.tsx:348-354 | The country list keeps input order, labelled 1, 2, 3, and so on. |
| Ranking.MaxValue | src/components/sections/RankingSection.tsx:77 | The largest value is one of the entries' values and at least all of them. |
| Ranking.ColumnHeaders | src/components/sections/RankingSection.tsx:78-80 | The `pages` variant shows Página/Visitas, and every other variant shows Landing Page/Impresiones. |
| Ranking.Rows | src/components/sections/RankingSection.tsx:115-131 | One row per entry in order, labelled `#index+1`, with its bar at `value / max * 100`. An empty list gives an empty table. |
| Ranking.RowsWithinScale | src/components/sections/RankingSection.tsx:51-52 | With non-negative values every bar is within [0, 100], and a top entry's bar is full. |
| Ranking.SomeRowFull | src/components/sections/RankingSection.tsx:51-52 | Some row always reaches the full width. |
| PasswordGate.HasAccess | src/components/PasswordProtection.tsx:26-27 | Access is granted exactly when the key is stored with the value `'true'`. A missing key means no access. |
| PasswordGate.Gate.View | src/components/PasswordProtection.tsx:49-60 | A spinner before the storage check, the protected content once authenticated, and the login form otherwise. |
| PasswordGate.Gate.Report | src/components/PasswordProtection.tsx:13-22 | The report gate starts unchecked (spinner), with an empty input and no error. Its input clears the error when edited. |
| PasswordGate.Gate.Proposal | src/components/auth/PasswordProtection.tsx:13-22 | The proposal gate's key and password default to `propuesta-access` and `NOR2026`. Its input is locked while verifying. |
| PasswordGate.Gate.Mount | src/components/PasswordProtection.tsx:25-28 | The mount effect authenticates exactly when the stored flag grants access. |
| PasswordGate.Gate.Submit | src/components/PasswordProtection.tsx:30-36 | From the login form with the button enabled (not loading, non-empty input): the spinner starts, the error clears, and the timer captures the typed password. Otherwise nothing happens. |
| PasswordGate.Gate.TimerFires | src/components/PasswordProtection.tsx:36-45 | A matching password is stored as `'true'` under the key and unlocks the gate. A wrong one shows `Contraseña incorrecta` and empties the input. Loading ends either way. |
| PasswordGate.Gate.Edit | src/components/auth/PasswordProtection.tsx:103-108 | Typing sets the input, except in the proposal gate while loading. The report gate also clears the error. |
| PasswordGate.ReturningVisit | src/components/auth/PasswordProtection.tsx:24-28 | Once access is stored, a new gate on the same storage shows the protected content as soon as it mounts. |

## Left out

- **Screen capture.** `html2canvas`, its `onclone` restyling and the image
  encoding are left out. A capture is a parameter: a canvas of some size,
  or a failure.
- **jsPDF internals.** Fonts, colours as drawn, and `splitTextToSize` are
  not modelled. The line count is a function given to the composer. The
  marketing copy is named by block and item, not reproduced.
- **Progress callbacks.** These are delivered as the list a generator
  returns, and CTA replays them after generation rather than interleaving
  them with the drawing.
- **React scheduling.** Batched updates, effect timing and stale closures
  are not modelled:
  - Timers (the 500 ms transition, the 5 s autoplay interval, the 300 ms
    password delay) are explicit events.
  - Each IntersectionObserver is a `visible` parameter. The country bars
    have one flag per bar, since each bar observes itself and waits
    `index * 100` ms. The order in which the flags switch on is not
    modelled.
  - Hover is a pair of events.
- **Lightbox side effects.** The lightbox's `document.body.style.overflow`
  toggling is left out, and so are its image rendering and thumbnails
  (thumbnails call `GoToSlide`).
- **Number formatting.** `toLocaleString` and `formatNumber` are display
  only and are not modelled.
- **Saving keywords.** `handleSave` on the keyword page is a stub that
  waits and shows a toast. It is not modelled. Toasts are returned as
  values.
- **Text.Lower.** This folds the ASCII, Latin-1 and Latin Extended-A
  capitals, which covers the Spanish keyword list. Capitals of other
  scripts (Greek, Cyrillic and so on) are kept as they are, and so is
  `İ` (U+0130), which `toLowerCase` turns into two characters.
- **Horizontal positions.** The log records where each block lands
  vertically and on which page. The `x` offsets of text written directly
  (`margin + 12`, `pageWidth - margin - 30`) are not modelled.
- **Copy transformations.** Copy is named, not reproduced, so
  `keywordExamples.join('  •  ')` and the calendar period's
  `toUpperCase()` are part of the named copy and are not modelled.
- **Keywords.TermCompare.** This does not model `localeCompare`'s locale
  collation. Terms are ordered by code point, a total order.
- **KeywordsAdmin.IndexOf.** JavaScript's `indexOf` compares objects by
  identity. The model compares by value, so it finds the first equal
  keyword. With duplicates, this may remove a different copy of an equal
  keyword.
- **Text.ParseInt.** This reads an optional sign followed by leading
  digits. `parseInt`'s whitespace skipping, and any input a number field
  would not produce, are not modelled.
- **Chart edge cases.** An empty list is accepted by
  `Proportions.DonutLayout`, `AnalysisCharts.PremiumDonutChart`,
  `AnalysisBackup.DonutChart`, `Ranking.Rows` and
  `AnalysisCharts.CountryBars`. It gives no segment, row or bar, as the
  source's `map` over nothing renders a bare circle or an empty table. A
  non-empty list whose total or maximum is 0 is required away by those
  members and by `AnalysisCharts.CountryBarWidth`. The source divides by
  zero there and renders NaN widths.
- **AnalysisCharts.MaxPercentage.** This requires a non-empty list.
  `Math.max` of an empty list is `-Infinity`, which a `real` cannot hold.
  The source never uses that value, since it then renders no bar.
  `Ranking.MaxValue` has the same requirement for the same reason.
- **Proportions.SharesOfTotal.** Chart values are exact rationals here,
  but the source computes them in IEEE double precision. There, the
  shares of the total sum to 100 only up to rounding. For example, with
  percentages [1, 1, 1] each share is 33.33333333333333.
- **Proportions.DonutCloses.** For the same reason, the source's lengths
  sum to 100, and its last segment ends at 0, only up to rounding. With
  [1, 1, 1] the running `cumulative` reaches 99.99999999999999, so the
  last segment ends about 1.4e-14 short of 0.
- **LeadershipSlider.ImageSlider.constructor.** This requires at least one
  image. With none, the source's modulo would produce NaN.
- **PasswordGate.Gate.Submit.** This is reachable only through the enabled
  submit button. An HTML form does not submit implicitly while its
  default button is disabled.
- **Page content.** The site's static sections, the layout and all styling
  carry no behaviour and are not part of this model.
