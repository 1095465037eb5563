/**
 * The presentation's navigation state: the slides, the slide on screen and
 * how far it is scrolled. `View` and its four step functions say what a key
 * does; the `App` class updates its fields in place and is proved to follow
 * them. The slide counter shown in the title is decimal text that reads
 * back as the position and the total.
 */
module Navigation {
  import opened Options
  import opened Markdown
  import opened Styled
  import opened Highlight
  import opened SlideFold
  import opened SlideBuilder

  /** Which slide is on screen and how many of its lines are scrolled past. */
  datatype View = View(slide: nat, scroll: nat)

  /** The largest scroll offset of a slide with this many lines: one less, saturating at zero. */
  function MaxScroll(lineCount: nat): nat {
    if lineCount == 0 then 0 else lineCount - 1
  }

  /** The view points into a non-empty deck and scrolls no further than the slide's last line. */
  ghost predicate ValidView(deck: seq<Slide>, v: View) {
    |deck| >= 1 && v.slide < |deck| && v.scroll <= MaxScroll(|deck[v.slide]|)
  }

  function NextView(deck: seq<Slide>, v: View): View
    requires |deck| >= 1
  {
    if v.slide < |deck| - 1 then View(v.slide + 1, 0) else v
  }

  function PrevView(v: View): View {
    if v.slide > 0 then View(v.slide - 1, 0) else v
  }

  function ScrollDownView(deck: seq<Slide>, v: View): View
    requires v.slide < |deck|
  {
    if v.scroll < MaxScroll(|deck[v.slide]|) then v.(scroll := v.scroll + 1) else v
  }

  function ScrollUpView(v: View): View {
    if v.scroll > 0 then v.(scroll := v.scroll - 1) else v
  }

  /** Every key keeps the view valid. */
  lemma StepsKeepValid(deck: seq<Slide>, v: View)
    requires ValidView(deck, v)
    ensures ValidView(deck, NextView(deck, v))
    ensures ValidView(deck, PrevView(v))
    ensures ValidView(deck, ScrollDownView(deck, v))
    ensures ValidView(deck, ScrollUpView(v))
  {
  }

  /**
   * Changing slide always shows the new slide from its top; going forward
   * then back (or back then forward) returns to the same slide, and at the
   * last (first) slide going forward (back) does nothing.
   */
  lemma SlideMovesUndo(deck: seq<Slide>, v: View)
    requires ValidView(deck, v)
    ensures v.slide + 1 < |deck| ==> PrevView(NextView(deck, v)) == View(v.slide, 0)
    ensures v.slide > 0 ==> NextView(deck, PrevView(v)) == View(v.slide, 0)
    ensures v.slide + 1 == |deck| <==> NextView(deck, v) == v
    ensures v.slide == 0 <==> PrevView(v) == v
  {
  }

  /** Scrolling down then up (or up then down) is undone whenever the first scroll moved. */
  lemma ScrollsUndo(deck: seq<Slide>, v: View)
    requires ValidView(deck, v)
    ensures v.scroll < MaxScroll(|deck[v.slide]|) ==> ScrollUpView(ScrollDownView(deck, v)) == v
    ensures v.scroll > 0 ==> ScrollDownView(deck, ScrollUpView(v)) == v
    ensures ScrollDownView(deck, v) == v <==> v.scroll == MaxScroll(|deck[v.slide]|)
    ensures ScrollUpView(v) == v <==> v.scroll == 0
  {
  }

  /** The view after pressing "next" `k` times. */
  function Forward(deck: seq<Slide>, v: View, k: nat): View
    requires |deck| >= 1
  {
    if k == 0 then v else NextView(deck, Forward(deck, v, k - 1))
  }

  /** Pressing "next" `k` times from the first slide shows slide min(k, last), from its top. */
  lemma {:induction false} ForwardReaches(deck: seq<Slide>, k: nat)
    requires |deck| >= 1
    ensures Forward(deck, View(0, 0), k) == View(if k < |deck| then k else |deck| - 1, 0)
  {
    if k > 0 {
      ForwardReaches(deck, k - 1);
    }
  }

  /** The view after pressing "scroll down" `k` times. */
  function Down(deck: seq<Slide>, v: View, k: nat): (w: View)
    requires v.slide < |deck|
    ensures w.slide == v.slide
  {
    if k == 0 then v else ScrollDownView(deck, Down(deck, v, k - 1))
  }

  /** Scrolling down `k` times from the top stops at the slide's last line. */
  lemma {:induction false} DownReaches(deck: seq<Slide>, slide: nat, k: nat)
    requires slide < |deck|
    ensures var m := MaxScroll(|deck[slide]|);
      Down(deck, View(slide, 0), k) == View(slide, if k < m then k else m)
  {
    if k > 0 {
      DownReaches(deck, slide, k - 1);
    }
  }

  // ---------------------------------------------------------------------------
  // The slide counter.

  function Digit(d: nat): char
    requires d < 10
  {
    (48 + d) as char
  }

  predicate IsDigits(s: string) {
    s != [] && forall i :: 0 <= i < |s| ==> '0' <= s[i] <= '9'
  }

  /** `n` in decimal, without leading zeros. */
  function Decimal(n: nat): (s: string)
    ensures IsDigits(s)
    ensures |s| > 1 ==> s[0] != '0'
    decreases n
  {
    if n < 10 then [Digit(n)] else Decimal(n / 10) + [Digit(n % 10)]
  }

  /** The value of a string of decimal digits. */
  function ParseDecimal(s: string): nat
    requires IsDigits(s)
  {
    var d := s[|s| - 1] as int - 48;
    if |s| == 1 then d else ParseDecimal(s[..|s| - 1]) * 10 + d
  }

  lemma {:induction false} DecimalRoundTrip(n: nat)
    ensures ParseDecimal(Decimal(n)) == n
    decreases n
  {
    if n >= 10 {
      DecimalRoundTrip(n / 10);
      assert Decimal(n)[..|Decimal(n)| - 1] == Decimal(n / 10);
    }
  }

  /** The index of the first '/' of `s`, or `|s|` when there is none. */
  function SlashIndex(s: string): (k: nat)
    ensures k <= |s|
    ensures forall i :: 0 <= i < k ==> s[i] != '/'
    ensures k < |s| ==> s[k] == '/'
  {
    if s == [] || s[0] == '/' then 0 else 1 + SlashIndex(s[1..])
  }

  /** Reads "position/total" back, when both sides are decimal numbers. */
  function ParseInfo(s: string): Option<(nat, nat)> {
    var k := SlashIndex(s);
    if k < |s| && IsDigits(s[..k]) && IsDigits(s[k + 1..]) then Some((ParseDecimal(s[..k]), ParseDecimal(s[k + 1..])))
    else None
  }

  lemma DigitsBeforeSlash(digits: string, rest: string)
    requires IsDigits(digits)
    ensures SlashIndex(digits + "/" + rest) == |digits|
  {
    var s := digits + "/" + rest;
    assert s[|digits|] == '/';
  }

  /** The counter text reads back as the two numbers it was made from. */
  lemma InfoRoundTrip(position: nat, total: nat)
    ensures ParseInfo(Decimal(position) + "/" + Decimal(total)) == Some((position, total))
  {
    var s := Decimal(position) + "/" + Decimal(total);
    DigitsBeforeSlash(Decimal(position), Decimal(total));
    assert s[..|Decimal(position)|] == Decimal(position);
    assert s[|Decimal(position)| + 1..] == Decimal(total);
    DecimalRoundTrip(position);
    DecimalRoundTrip(total);
  }

  // ---------------------------------------------------------------------------

  class App {
    var slides: seq<Slide>
    var currentSlide: nat
    var scrollOffset: nat

    ghost predicate Valid()
      reads this
    {
      ValidView(slides, View(currentSlide, scrollOffset)) && forall i :: 0 <= i < |slides| ==> slides[i] != []
    }

    function CurrentView(): View
      reads this
    {
      View(currentSlide, scrollOffset)
    }

    /** Starts on the first slide, unscrolled, with the slides of the document. */
    constructor(engine: SyntaxEngine, events: seq<Event>)
      ensures Valid()
      ensures slides == Parse(engine, events) && CurrentView() == View(0, 0)
    {
      var deck := ParseMarkdownToSlides(engine, events);
      slides := deck;
      currentSlide := 0;
      scrollOffset := 0;
    }

    method NextSlide()
      requires Valid()
      modifies this
      ensures Valid() && slides == old(slides)
      ensures CurrentView() == NextView(slides, old(CurrentView()))
    {
      if currentSlide < |slides| - 1 {
        currentSlide := currentSlide + 1;
        scrollOffset := 0;
      }
    }

    method PrevSlide()
      requires Valid()
      modifies this
      ensures Valid() && slides == old(slides)
      ensures CurrentView() == PrevView(old(CurrentView()))
    {
      if currentSlide > 0 {
        currentSlide := currentSlide - 1;
        scrollOffset := 0;
      }
    }

    method ScrollDown()
      requires Valid()
      modifies this
      ensures Valid() && slides == old(slides)
      ensures CurrentView() == ScrollDownView(slides, old(CurrentView()))
    {
      var maxScroll := MaxScroll(|slides[currentSlide]|);
      if scrollOffset < maxScroll {
        scrollOffset := scrollOffset + 1;
      }
    }

    method ScrollUp()
      requires Valid()
      modifies this
      ensures Valid() && slides == old(slides)
      ensures CurrentView() == ScrollUpView(old(CurrentView()))
    {
      if scrollOffset > 0 {
        scrollOffset := scrollOffset - 1;
      }
    }

    /** The slide on screen, which always has a line. */
    function CurrentSlideContent(): (content: Slide)
      requires Valid()
      reads this
      ensures content == slides[currentSlide] && content != []
      ensures scrollOffset < |content|
    {
      slides[currentSlide]
    }

    /** "position/total", counting slides from one. */
    function SlideInfo(): (info: string)
      requires Valid()
      reads this
      ensures info == Decimal(currentSlide + 1) + "/" + Decimal(|slides|)
      ensures ParseInfo(info) == Some((currentSlide + 1, |slides|))
    {
      InfoRoundTrip(currentSlide + 1, |slides|);
      Decimal(currentSlide + 1) + "/" + Decimal(|slides|)
    }
  }
}
