/**
 * The two download buttons of src/components/sections/CTASection.tsx: each
 * handler refuses to start while either export runs, raises its own flag,
 * forwards the generator's progress, and lowers the flag again in `finally`.
 */
module CtaExport {
  import opened Wrappers
  import opened PdfLayout
  import VisualExport
  import EditorialReport

  const DefaultTargetId: string := "pdf-content"
  const DefaultFilename: string := "NORGESTION-Informe-2025.pdf"
  /** The text button's filename, fixed whatever the props say. */
  const TextFilename: string := "NORGESTION-Informe-Texto-2025.pdf"

  /** The generator call a handler starts. */
  datatype Request =
    | VisualRequest(elementId: string, filename: string)
    | TextRequest(filename: string)

  class CtaSection {
    const pdfTargetId: string
    const pdfFilename: string
    var isGeneratingVisual: bool
    var isGeneratingText: bool
    var progressVisual: int
    var progressText: int

    /** At most one export at a time, and an idle export shows no progress. */
    predicate Valid()
      reads this
    {
      && !(isGeneratingVisual && isGeneratingText)
      && (!isGeneratingVisual ==> progressVisual == 0)
      && (!isGeneratingText ==> progressText == 0)
    }

    /** Both buttons are disabled while either export runs. */
    function ButtonsDisabled(): (disabled: bool)
      reads this
      ensures Valid() ==> (disabled <==> isGeneratingVisual != isGeneratingText)
    {
      isGeneratingVisual || isGeneratingText
    }

    constructor (pdfTargetId: Option<string>, pdfFilename: Option<string>)
      ensures Valid() && !ButtonsDisabled()
      ensures this.pdfTargetId == pdfTargetId.GetOr(DefaultTargetId)
      ensures this.pdfFilename == pdfFilename.GetOr(DefaultFilename)
      ensures progressVisual == 0 && progressText == 0
    {
      this.pdfTargetId := pdfTargetId.GetOr(DefaultTargetId);
      this.pdfFilename := pdfFilename.GetOr(DefaultFilename);
      isGeneratingVisual := false;
      isGeneratingText := false;
      progressVisual := 0;
      progressText := 0;
    }

    /** The start of `handleVisualPDF`, up to the generator call. */
    method HandleVisualPDF() returns (request: Option<Request>)
      requires Valid()
      modifies this
      ensures Valid()
      ensures old(ButtonsDisabled()) ==>
        && request == None
        && isGeneratingVisual == old(isGeneratingVisual) && isGeneratingText == old(isGeneratingText)
        && progressVisual == old(progressVisual) && progressText == old(progressText)
      ensures !old(ButtonsDisabled()) ==>
        && request == Some(VisualRequest(pdfTargetId, pdfFilename))
        && isGeneratingVisual && !isGeneratingText
        && progressVisual == 0 && progressText == old(progressText)
    {
      if isGeneratingVisual || isGeneratingText {
        return None;
      }
      isGeneratingVisual := true;
      progressVisual := 0;
      request := Some(VisualRequest(pdfTargetId, pdfFilename));
    }

    /** The start of `handleTextPDF`, up to the generator call. */
    method HandleTextPDF() returns (request: Option<Request>)
      requires Valid()
      modifies this
      ensures Valid()
      ensures old(ButtonsDisabled()) ==>
        && request == None
        && isGeneratingVisual == old(isGeneratingVisual) && isGeneratingText == old(isGeneratingText)
        && progressVisual == old(progressVisual) && progressText == old(progressText)
      ensures !old(ButtonsDisabled()) ==>
        && request == Some(TextRequest(TextFilename))
        && isGeneratingText && !isGeneratingVisual
        && progressText == 0 && progressVisual == old(progressVisual)
    {
      if isGeneratingVisual || isGeneratingText {
        return None;
      }
      isGeneratingText := true;
      progressText := 0;
      request := Some(TextRequest(TextFilename));
    }

    /** `onProgress: setProgressVisual`. */
    method VisualProgress(p: int)
      requires Valid() && isGeneratingVisual
      modifies this
      ensures Valid() && progressVisual == p
      ensures isGeneratingVisual && !isGeneratingText && progressText == old(progressText)
    {
      progressVisual := p;
    }

    /** `onProgress: setProgressText`. */
    method TextProgress(p: int)
      requires Valid() && isGeneratingText
      modifies this
      ensures Valid() && progressText == p
      ensures isGeneratingText && !isGeneratingVisual && progressVisual == old(progressVisual)
    {
      progressText := p;
    }

    /** The `finally` of `handleVisualPDF`, after success or error alike. */
    method VisualSettled()
      requires Valid() && isGeneratingVisual
      modifies this
      ensures Valid() && !ButtonsDisabled()
      ensures progressVisual == 0 && progressText == old(progressText)
    {
      isGeneratingVisual := false;
      progressVisual := 0;
    }

    /** The `finally` of `handleTextPDF`, after success or error alike. */
    method TextSettled()
      requires Valid() && isGeneratingText
      modifies this
      ensures Valid() && !ButtonsDisabled()
      ensures progressText == 0 && progressVisual == old(progressVisual)
    {
      isGeneratingText := false;
      progressText := 0;
    }

    /**
     * A click on the text button followed by the whole report export: the
     * report is saved under the fixed name, and the section is idle again
     * afterwards.
     */
    method TextExport(wrap: (Copy, Style, int) -> nat) returns (savedAs: Option<string>)
      requires Valid()
      modifies this
      ensures Valid()
      ensures old(ButtonsDisabled()) ==>
        && savedAs == None
        && isGeneratingVisual == old(isGeneratingVisual) && isGeneratingText == old(isGeneratingText)
        && progressVisual == old(progressVisual) && progressText == old(progressText)
      ensures !old(ButtonsDisabled()) ==> savedAs == Some(TextFilename) && !ButtonsDisabled()
    {
      var request := HandleTextPDF();
      if request.None? {
        return None;
      }
      var doc, progress, name := EditorialReport.GenerateEditorialPDF(Some(TextFilename), wrap);
      for i := 0 to |progress|
        invariant Valid() && isGeneratingText
      {
        TextProgress(progress[i]);
      }
      TextSettled();
      savedAs := Some(name);
    }

    /**
     * A click on the visual button followed by the whole raster export on
     * `browser`: whatever the capture does, the section is idle again and
     * the page's overflow style is what it was.
     */
    method VisualExportRun(browser: VisualExport.Browser, capture: VisualExport.CaptureResult)
      returns (outcome: Option<Result<VisualExport.Raster, VisualExport.ExportError>>)
      requires Valid()
      modifies this, browser
      ensures Valid() && browser.overflow == old(browser.overflow)
      ensures old(ButtonsDisabled()) ==>
        && outcome == None && browser.downloads == old(browser.downloads)
        && isGeneratingVisual == old(isGeneratingVisual) && isGeneratingText == old(isGeneratingText)
        && progressVisual == old(progressVisual) && progressText == old(progressText)
      ensures !old(ButtonsDisabled()) ==> outcome.Some? && !ButtonsDisabled()
      ensures !old(ButtonsDisabled()) && outcome.value.Success? ==>
        browser.downloads == old(browser.downloads) + [VisualExport.Download(pdfFilename, outcome.value.value)]
      ensures outcome.Some? && outcome.value.Failure? ==> browser.downloads == old(browser.downloads)
    {
      var request := HandleVisualPDF();
      if request.None? {
        return None;
      }
      var result, progress := browser.GenerateVisualPDF(pdfTargetId, Some(pdfFilename), capture);
      ghost var saved := browser.downloads;
      for i := 0 to |progress|
        invariant Valid() && isGeneratingVisual
        invariant browser.overflow == old(browser.overflow) && browser.downloads == saved
      {
        VisualProgress(progress[i]);
      }
      VisualSettled();
      outcome := Some(result);
    }
  }
}
