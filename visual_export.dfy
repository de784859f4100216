/**
 * `generateVisualPDF` of src/lib/pdf-generator.ts: capture a page element as
 * one tall image and slice it across A4 pages by drawing the whole image on
 * every page, shifted up by one page height per page.
 */
module VisualExport {
  import opened Wrappers

  /** Width of the image on the page and height of one A4 page, in millimetres. */
  const ImgWidth: real := 210.0
  const PageHeight: real := 297.0
  const DefaultFilename: string := "NORGESTION-Informe-2025.pdf"

  type Pixels = n: int | n >= 1 witness 1

  /** The captured canvas, in pixels. */
  datatype Canvas = Canvas(width: Pixels, height: nat)

  /** What the capture library hands back: a canvas, or a rejected promise. */
  datatype CaptureResult = Captured(canvas: Canvas) | CaptureFailed

  datatype ExportError = ElementNotFound(id: string) | CaptureError

  /** The saved document: the image height and where the image was placed on each page. */
  datatype Raster = Raster(imgHeight: real, offsets: seq<real>)

  datatype Download = Download(filename: string, pdf: Raster)

  /** The image scaled to the page width keeps the canvas's aspect ratio. */
  function ImageHeight(c: Canvas): (h: real)
    ensures h >= 0.0
    ensures h * c.width as real == c.height as real * ImgWidth
  {
    (c.height as real * ImgWidth) / c.width as real
  }

  /**
   * The number of pages the slicing loop produces: the least `n >= 1` whose
   * `n` pages are together at least as tall as the image.
   */
  function PagesFor(h: real): (n: nat)
    ensures n >= 1
    ensures n as real * PageHeight >= h
    ensures n == 1 || (n - 1) as real * PageHeight < h
    decreases if h <= 0.0 then 0 else h.Floor
  {
    if h <= PageHeight then 1 else 1 + PagesFor(h - PageHeight)
  }

  /** No smaller page count covers the image: there is never a trailing blank page. */
  lemma PagesForLeast(h: real, m: nat)
    requires m >= 1 && m as real * PageHeight >= h
    ensures m >= PagesFor(h)
  {
  }

  /**
   * Any overflow past one page, however thin, costs a whole extra page: the
   * loop has no minimum-slice threshold.
   */
  lemma ThinOverflowAddsPage(h: real)
    requires PageHeight < h <= 2.0 * PageHeight
    ensures PagesFor(h) == 2
  {
    assert PagesFor(h - PageHeight) == 1;
  }

  /**
   * The slicing loop: page `k` shows the image drawn at `-297 * k`, so each
   * page shows the next 297 mm band, and there are exactly `PagesFor(h)` pages.
   */
  method SlicePages(imgHeight: real) returns (offsets: seq<real>)
    ensures |offsets| == PagesFor(imgHeight)
    ensures forall k :: 0 <= k < |offsets| ==> offsets[k] == -(k as real) * PageHeight
  {
    var heightLeft := imgHeight;
    var position := 0.0;
    offsets := [position];
    heightLeft := heightLeft - PageHeight;
    while heightLeft > 0.0
      invariant |offsets| >= 1
      invariant heightLeft == imgHeight - |offsets| as real * PageHeight
      invariant forall k :: 0 <= k < |offsets| ==> offsets[k] == -(k as real) * PageHeight
      invariant heightLeft > 0.0 ==> PagesFor(imgHeight) == |offsets| + PagesFor(heightLeft)
      invariant heightLeft <= 0.0 ==> PagesFor(imgHeight) == |offsets|
      decreases PagesFor(imgHeight) - |offsets|
    {
      position := heightLeft - imgHeight;
      offsets := offsets + [position];
      heightLeft := heightLeft - PageHeight;
    }
  }

  /** The page state the export touches: the body's overflow style and the saved files. */
  class Browser {
    /** Ids of the elements present in the document. */
    const elements: set<string>
    var overflow: string
    /** Every value written to `document.body.style.overflow`, in order. */
    var overflowWrites: seq<string>
    var downloads: seq<Download>

    constructor (elements: set<string>, overflow: string)
      ensures this.elements == elements && this.overflow == overflow
      ensures overflowWrites == [] && downloads == []
    {
      this.elements := elements;
      this.overflow := overflow;
      overflowWrites := [];
      downloads := [];
    }

    /**
     * `generateVisualPDF(elementId, {filename, onProgress})`. A missing
     * element throws before anything changes; otherwise the overflow style
     * is set to "visible" for the capture and restored whatever happens.
     */
    method GenerateVisualPDF(elementId: string, filename: Option<string>, capture: CaptureResult)
      returns (result: Result<Raster, ExportError>, progress: seq<int>)
      modifies this
      ensures overflow == old(overflow)
      ensures elementId !in elements ==>
        && result == Failure(ElementNotFound(elementId)) && progress == []
        && overflowWrites == old(overflowWrites) && downloads == old(downloads)
      ensures elementId in elements ==>
        overflowWrites == old(overflowWrites) + ["visible", old(overflow)]
      ensures elementId in elements && capture.CaptureFailed? ==>
        && result == Failure(CaptureError) && progress == [10, 20]
        && downloads == old(downloads)
      ensures elementId in elements && capture.Captured? ==>
        && progress == [10, 20, 70, 90, 100]
        && result.Success?
        && result.value.imgHeight == ImageHeight(capture.canvas)
        && |result.value.offsets| == PagesFor(ImageHeight(capture.canvas))
        && (forall k :: 0 <= k < |result.value.offsets| ==> result.value.offsets[k] == -(k as real) * PageHeight)
        && downloads == old(downloads) + [Download(filename.GetOr(DefaultFilename), result.value)]
    {
      var name := filename.GetOr(DefaultFilename);
      if elementId !in elements {
        return Failure(ElementNotFound(elementId)), [];
      }
      progress := [10];
      var originalOverflow := overflow;
      overflow := "visible";
      overflowWrites := overflowWrites + ["visible"];
      progress := progress + [20];
      match capture {
        case CaptureFailed =>
          result := Failure(CaptureError);
        case Captured(canvas) =>
          progress := progress + [70];
          var imgHeight := ImageHeight(canvas);
          var offsets := SlicePages(imgHeight);
          progress := progress + [90];
          var pdf := Raster(imgHeight, offsets);
          downloads := downloads + [Download(name, pdf)];
          progress := progress + [100];
          result := Success(pdf);
      }
      // the `finally` block
      overflow := originalOverflow;
      overflowWrites := overflowWrites + [originalOverflow];
    }
  }
}
