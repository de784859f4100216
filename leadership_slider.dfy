/**
 * The `ImageSlider` and `Lightbox` components of
 * src/components/sections/LeadershipSection.tsx: a circular index over the
 * images, a lock that ignores navigation while a 500 ms transition runs,
 * autoplay that stops on hover or while the lightbox is open, and the
 * counter and progress bar derived from the index.
 */
module LeadershipSlider {
  import opened Wrappers
  import opened Text

  /** `(currentIndex + 1) % images.length`. */
  function NextIndex(i: nat, n: nat): (r: nat)
    requires n > 0
    ensures r < n
    ensures i < n - 1 ==> r == i + 1
    ensures i == n - 1 ==> r == 0
  {
    (i + 1) % n
  }

  /** `(currentIndex - 1 + images.length) % images.length`. */
  function PrevIndex(i: nat, n: nat): (r: nat)
    requires 0 < n && i < n
    ensures r < n
    ensures i > 0 ==> r == i - 1
    ensures i == 0 ==> r == n - 1
  {
    (i - 1 + n) % n
  }

  /** Next and prev undo each other. */
  lemma PrevUndoesNext(i: nat, n: nat)
    requires i < n
    ensures PrevIndex(NextIndex(i, n), n) == i
    ensures NextIndex(PrevIndex(i, n), n) == i
  {
  }

  /** The index after `k` successive nexts. */
  function NextTimes(i: nat, n: nat, k: nat): (r: nat)
    requires i < n
    ensures r < n
  {
    if k == 0 then i else NextIndex(NextTimes(i, n, k - 1), n)
  }

  /** Before wrapping around, `k` nexts move `k` slides forward. */
  lemma {:induction false} NextTimesNoWrap(i: nat, n: nat, k: nat)
    requires i + k < n
    ensures NextTimes(i, n, k) == i + k
  {
    if k > 0 { NextTimesNoWrap(i, n, k - 1); }
  }

  /** `a` nexts followed by `b` nexts are `a + b` nexts. */
  lemma {:induction false} NextTimesCompose(i: nat, n: nat, a: nat, b: nat)
    requires i < n
    ensures NextTimes(i, n, a + b) == NextTimes(NextTimes(i, n, a), n, b)
  {
    if b > 0 { NextTimesCompose(i, n, a, b - 1); }
  }

  /** `n` nexts bring the slider back to where it started. */
  lemma FullCycle(i: nat, n: nat)
    requires i < n
    ensures NextTimes(i, n, n) == i
  {
    NextTimesNoWrap(i, n, n - 1 - i);
    NextTimesCompose(i, n, n - i, i);
    NextTimesNoWrap(0, n, i);
  }

  /** What a key does in the open lightbox. */
  datatype LightboxAction = Close | Next | Prev | NoAction

  /** The lightbox's keydown listener, registered only while it is open. */
  function KeyAction(isOpen: bool, key: string): (a: LightboxAction)
    ensures !isOpen ==> a == NoAction
    ensures isOpen ==> (a == Close <==> key == "Escape")
    ensures isOpen ==> (a == Next <==> key == "ArrowRight")
    ensures isOpen ==> (a == Prev <==> key == "ArrowLeft")
  {
    if !isOpen then NoAction
    else if key == "Escape" then Close
    else if key == "ArrowRight" then Next
    else if key == "ArrowLeft" then Prev
    else NoAction
  }

  /**
   * `String(k).padStart(2, '0')` for the counter: at least two digits, and
   * they still read as `k`.
   */
  function CounterField(k: nat): (s: string)
    ensures |s| >= 2 && AllDigits(s) && DigitsValue(s) == k
    ensures k < 100 ==> |s| == 2
    ensures k >= 10 ==> s == NatToString(k)
    ensures k < 10 ==> s == "0" + NatToString(k)
  {
    PaddedValue(k);
    PadStart2(NatToString(k))
  }

  lemma PaddedValue(k: nat)
    ensures var s := PadStart2(NatToString(k));
            && |s| >= 2 && AllDigits(s) && DigitsValue(s) == k && (k < 100 ==> |s| == 2)
            && (k >= 10 ==> s == NatToString(k))
            && (k < 10 ==> s == "0" + NatToString(k))
  {
    var digits := NatToString(k);
    if k >= 10 {
      assert digits == NatToString(k / 10) + [DigitChar(k % 10)];
    }
    if |digits| < 2 {
      assert PadStart2(digits) == "0" + digits;
      LeadingZeroValue(digits);
    }
    if k < 100 { TwoDigitsAtMost(k); }
  }

  lemma TwoDigitsAtMost(k: nat)
    requires k < 100
    ensures |NatToString(k)| <= 2
  {
    if k >= 10 {
      assert NatToString(k) == NatToString(k / 10) + [DigitChar(k % 10)];
    }
  }

  /** The counter "NN / MM": the 1-based current slide and the number of slides. */
  function Counter(index: nat, count: nat): (r: (string, string))
    ensures AllDigits(r.0) && DigitsValue(r.0) == index + 1
    ensures AllDigits(r.1) && DigitsValue(r.1) == count
    ensures index + 1 < 100 ==> |r.0| == 2
  {
    (CounterField(index + 1), CounterField(count))
  }

  /** The progress bar's width in percent: the share of slides up to and including the current one. */
  function ProgressWidth(index: nat, count: nat): (w: real)
    requires index < count
    ensures 0.0 < w <= 100.0
    ensures w == 100.0 <==> index == count - 1
  {
    ((index + 1) as real / count as real) * 100.0
  }

  lemma ProgressGrows(i: nat, j: nat, count: nat)
    requires i < j < count
    ensures ProgressWidth(i, count) < ProgressWidth(j, count)
  {
  }

  /** The open lightbox: the index of the image shown and the counter's two fields. */
  datatype LightboxFrame = LightboxFrame(image: nat, counter: (string, string))

  class ImageSlider {
    /** `images.length`. */
    const count: nat
    var currentIndex: nat
    var isTransitioning: bool
    var isPaused: bool
    var isLightboxOpen: bool

    predicate Valid()
      reads this
    {
      currentIndex < count
    }

    /** Autoplay runs only while neither hovered nor showing the lightbox. */
    function AutoplayActive(): (active: bool)
      reads this
      ensures isPaused || isLightboxOpen ==> !active
      ensures !isPaused && !isLightboxOpen ==> active
    {
      !isPaused && !isLightboxOpen
    }

    constructor (count: nat)
      requires count > 0
      ensures Valid() && this.count == count
      ensures currentIndex == 0 && !isTransitioning && !isPaused && !isLightboxOpen
    {
      this.count := count;
      currentIndex := 0;
      isTransitioning := false;
      isPaused := false;
      isLightboxOpen := false;
    }

    /** `goToSlide(index)`: ignored during a transition; otherwise jumps and starts one. */
    method GoToSlide(index: nat)
      requires Valid() && index < count
      modifies this
      ensures Valid()
      ensures old(isTransitioning) ==> currentIndex == old(currentIndex) && isTransitioning
      ensures !old(isTransitioning) ==> currentIndex == index && isTransitioning
      ensures isPaused == old(isPaused) && isLightboxOpen == old(isLightboxOpen)
    {
      if isTransitioning {
        return;
      }
      isTransitioning := true;
      currentIndex := index;
    }

    /** The 500 ms timer that ends a transition. */
    method TransitionEnd()
      requires Valid()
      modifies this
      ensures Valid()
      ensures !isTransitioning && currentIndex == old(currentIndex)
      ensures isPaused == old(isPaused) && isLightboxOpen == old(isLightboxOpen)
    {
      isTransitioning := false;
    }

    method GoToNext()
      requires Valid()
      modifies this
      ensures Valid()
      ensures currentIndex == if old(isTransitioning) then old(currentIndex) else NextIndex(old(currentIndex), count)
      ensures isTransitioning
      ensures isPaused == old(isPaused) && isLightboxOpen == old(isLightboxOpen)
    {
      GoToSlide(NextIndex(currentIndex, count));
    }

    method GoToPrev()
      requires Valid()
      modifies this
      ensures Valid()
      ensures currentIndex == if old(isTransitioning) then old(currentIndex) else PrevIndex(old(currentIndex), count)
      ensures isTransitioning
      ensures isPaused == old(isPaused) && isLightboxOpen == old(isLightboxOpen)
    {
      GoToSlide(PrevIndex(currentIndex, count));
    }

    /** One 5 s autoplay interval: it exists, and so advances, only while autoplay is active. */
    method AutoplayTick()
      requires Valid()
      modifies this
      ensures Valid()
      ensures !old(AutoplayActive()) ==>
        currentIndex == old(currentIndex) && isTransitioning == old(isTransitioning)
      ensures old(AutoplayActive()) ==>
        && currentIndex == (if old(isTransitioning) then old(currentIndex) else NextIndex(old(currentIndex), count))
        && isTransitioning
      ensures isPaused == old(isPaused) && isLightboxOpen == old(isLightboxOpen)
    {
      if AutoplayActive() {
        GoToNext();
      }
    }

    method MouseEnter()
      requires Valid()
      modifies this
      ensures Valid() && isPaused && !AutoplayActive()
      ensures currentIndex == old(currentIndex) && isTransitioning == old(isTransitioning)
      ensures isLightboxOpen == old(isLightboxOpen)
    {
      isPaused := true;
    }

    method MouseLeave()
      requires Valid()
      modifies this
      ensures Valid() && !isPaused
      ensures currentIndex == old(currentIndex) && isTransitioning == old(isTransitioning)
      ensures isLightboxOpen == old(isLightboxOpen)
    {
      isPaused := false;
    }

    /** A click on the main image. */
    method OpenLightbox()
      requires Valid()
      modifies this
      ensures Valid() && isLightboxOpen && !AutoplayActive()
      ensures LightboxView() == Some(LightboxFrame(currentIndex, Counter(currentIndex, count)))
      ensures currentIndex == old(currentIndex) && isTransitioning == old(isTransitioning)
      ensures isPaused == old(isPaused)
    {
      isLightboxOpen := true;
    }

    /** The close button, a click on the backdrop, or Escape. */
    method CloseLightbox()
      requires Valid()
      modifies this
      ensures Valid() && !isLightboxOpen && LightboxView() == None
      ensures currentIndex == old(currentIndex) && isTransitioning == old(isTransitioning)
      ensures isPaused == old(isPaused)
    {
      isLightboxOpen := false;
    }

    /** A key pressed while the page has focus. */
    method LightboxKey(key: string)
      requires Valid()
      modifies this
      ensures Valid()
      ensures !old(isLightboxOpen) || KeyAction(true, key) == NoAction ==>
        && currentIndex == old(currentIndex) && isTransitioning == old(isTransitioning)
        && isLightboxOpen == old(isLightboxOpen)
      ensures old(isLightboxOpen) && key == "Escape" ==>
        && !isLightboxOpen && LightboxView() == None
        && currentIndex == old(currentIndex) && isTransitioning == old(isTransitioning)
      ensures old(isLightboxOpen) && key == "ArrowRight" ==>
        && isLightboxOpen && isTransitioning
        && currentIndex == (if old(isTransitioning) then old(currentIndex) else NextIndex(old(currentIndex), count))
      ensures old(isLightboxOpen) && key == "ArrowLeft" ==>
        && isLightboxOpen && isTransitioning
        && currentIndex == (if old(isTransitioning) then old(currentIndex) else PrevIndex(old(currentIndex), count))
      ensures isPaused == old(isPaused)
    {
      match KeyAction(isLightboxOpen, key) {
        case Close => CloseLightbox();
        case Next => GoToNext();
        case Prev => GoToPrev();
        case NoAction =>
      }
    }

    /**
     * What the lightbox renders: nothing while closed; otherwise the current
     * image, full screen, with the "NN / MM" counter underneath.
     */
    function LightboxView(): (v: Option<LightboxFrame>)
      requires Valid()
      reads this
      ensures v.None? <==> !isLightboxOpen
      ensures v.Some? ==> v.value.image < count && v.value.image == currentIndex
      ensures v.Some? ==> v.value.counter == Counter(currentIndex, count)
    {
      if !isLightboxOpen then None
      else Some(LightboxFrame(currentIndex, Counter(currentIndex, count)))
    }
  }
}
