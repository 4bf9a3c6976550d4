/** The paging arithmetic of the product carousel (src/components/ProductCarousel.tsx):
    how many cards fit, the clamped index the arrows move, the page dots, and which
    buttons are disabled. Layout widths and animation are not modelled. */
module Carousel {
  import opened Opt

  /** The number of cards shown at once. */
  type Visible = v: nat | 1 <= v <= 3 witness 1

  /** The card count before the container has been measured. */
  const InitialVisible: Visible := 2

  /** Cards that fit a container `width` pixels wide: one below 300, two below 500,
      three otherwise. */
  function VisibleCards(width: int): (v: Visible)
    ensures v == 1 <==> width < 300
    ensures v == 2 <==> 300 <= width < 500
    ensures v == 3 <==> 500 <= width
  {
    if width < 300 then 1 else if width < 500 then 2 else 3
  }

  /** The last index the arrows can reach, `max(0, n - v)`: the index at which the last
      card is the last visible one. */
  function MaxIndex(n: nat, v: Visible): (m: nat)
    ensures n >= v ==> m + v == n
    ensures n < v ==> m == 0
    ensures n > 0 ==> m < n
  {
    if n >= v then n - v else 0
  }

  /** The next arrow: one step right, never past MaxIndex. */
  function GoNext(i: nat, maxIndex: nat): (r: nat)
    ensures r <= maxIndex
    ensures i < maxIndex ==> r == i + 1
    ensures i >= maxIndex ==> r == maxIndex
  {
    if i + 1 < maxIndex then i + 1 else maxIndex
  }

  /** The previous arrow: one step left, never below zero. */
  function GoPrev(i: nat): (r: nat)
    ensures i > 0 ==> r + 1 == i
    ensures i == 0 ==> r == 0
  {
    if i >= 1 then i - 1 else 0
  }

  /** `ceil(n / v)`: the number of page dots. */
  function TotalPages(n: nat, v: Visible): (p: nat)
    ensures (p - 1) * v < n <= p * v || (n == 0 && p == 0)
  {
    (n + v - 1) / v
  }

  /** `floor(i / v)`: the dot shown as active. */
  function CurrentPage(i: nat, v: Visible): (p: nat)
    ensures p * v <= i < (p + 1) * v
  {
    i / v
  }

  /** A dot click: the first card of that page, not clamped to MaxIndex. */
  function Jump(page: nat, v: Visible): nat {
    page * v
  }

  /** The previous button is disabled at the first card. */
  predicate PrevDisabled(i: nat) {
    i == 0
  }

  /** The next button is disabled from MaxIndex on. */
  predicate NextDisabled(i: nat, maxIndex: nat) {
    i >= maxIndex
  }

  /** The carousel's state: the index of the first visible card and the cards per view. */
  datatype View = View(index: nat, visible: Visible)

  const InitialView := View(0, InitialVisible)

  /** What the user (or the window) can do: click an arrow, click a page dot, resize. */
  datatype Input = NextClick | PrevClick | DotClick(page: nat) | Resize(width: int)

  /** One input over `n` products. A click on a disabled arrow, or on a dot that is not
      rendered, does nothing; a resize changes the cards per view and keeps the index. */
  function Apply(n: nat, s: View, e: Input): (r: View)
    ensures e.Resize? ==> r == View(s.index, VisibleCards(e.width))
    ensures !e.Resize? ==> r.visible == s.visible
  {
    match e
    case NextClick =>
      if NextDisabled(s.index, MaxIndex(n, s.visible)) then s
      else s.(index := GoNext(s.index, MaxIndex(n, s.visible)))
    case PrevClick =>
      if PrevDisabled(s.index) then s else s.(index := GoPrev(s.index))
    case DotClick(page) =>
      if page < TotalPages(n, s.visible) then s.(index := Jump(page, s.visible)) else s
    case Resize(width) => View(s.index, VisibleCards(width))
  }

  /** Applies inputs in order. */
  function ApplyAll(n: nat, s: View, inputs: seq<Input>): View
    decreases |inputs|
  {
    if |inputs| == 0 then s else ApplyAll(n, Apply(n, s, inputs[0]), inputs[1..])
  }

  /** Rendering: an empty product list renders nothing; otherwise the dots and the
      disabled state of both arrows. */
  datatype Rendered = Rendered(pages: nat, activePage: nat, prevDisabled: bool, nextDisabled: bool)

  function Render(n: nat, s: View): (r: Option<Rendered>)
    ensures n == 0 <==> r.None?
  {
    if n == 0 then None
    else Some(Rendered(TotalPages(n, s.visible), CurrentPage(s.index, s.visible),
                        PrevDisabled(s.index), NextDisabled(s.index, MaxIndex(n, s.visible))))
  }

  /** A dot always leads to a product: the first card of every rendered page exists. */
  lemma JumpInRange(n: nat, v: Visible, page: nat)
    requires page < TotalPages(n, v)
    ensures Jump(page, v) < n
  {
    assert (TotalPages(n, v) - 1) * v < n;
    assert page * v <= (TotalPages(n, v) - 1) * v;
  }

  /** Jumping to a page makes it the active dot. */
  lemma JumpShowsPage(page: nat, v: Visible)
    ensures CurrentPage(Jump(page, v), v) == page
  {
    var p := CurrentPage(Jump(page, v), v);
    assert p * v <= page * v < (p + 1) * v;
  }

  /** The active dot is always one of the rendered dots when the index names a product. */
  lemma ActivePageRendered(n: nat, v: Visible, i: nat)
    requires i < n
    ensures CurrentPage(i, v) < TotalPages(n, v)
  {
    var p := CurrentPage(i, v);
    assert p * v <= i;
  }

  /** Whatever the user does, the index names a product (when there is one). */
  predicate InRange(n: nat, s: View) {
    n == 0 || s.index < n
  }

  lemma ApplyInRange(n: nat, s: View, e: Input)
    requires InRange(n, s)
    ensures InRange(n, Apply(n, s, e))
  {
    if e.DotClick? && e.page < TotalPages(n, s.visible) {
      JumpInRange(n, s.visible, e.page);
    }
  }

  lemma {:induction false} ApplyAllInRange(n: nat, s: View, inputs: seq<Input>)
    requires InRange(n, s)
    ensures InRange(n, ApplyAll(n, s, inputs))
    decreases |inputs|
  {
    if |inputs| > 0 {
      ApplyInRange(n, s, inputs[0]);
      ApplyAllInRange(n, Apply(n, s, inputs[0]), inputs[1..]);
    }
  }

  /** Arrows alone keep the index within [0, MaxIndex] for the current card count. */
  predicate Arrow(e: Input) {
    e.NextClick? || e.PrevClick?
  }

  lemma {:induction false} ArrowsStayClamped(n: nat, s: View, inputs: seq<Input>)
    requires s.index <= MaxIndex(n, s.visible)
    requires forall k :: 0 <= k < |inputs| ==> Arrow(inputs[k])
    ensures ApplyAll(n, s, inputs).index <= MaxIndex(n, s.visible)
    ensures ApplyAll(n, s, inputs).visible == s.visible
    decreases |inputs|
  {
    if |inputs| > 0 {
      assert Arrow(inputs[0]);
      assert forall k :: 0 <= k < |inputs[1..]| ==> Arrow(inputs[1..][k]) by {
        forall k | 0 <= k < |inputs[1..]| ensures Arrow(inputs[1..][k]) {
          assert inputs[1..][k] == inputs[k + 1];
        }
      }
      ArrowsStayClamped(n, Apply(n, s, inputs[0]), inputs[1..]);
    }
  }

  /** The arrows are disabled exactly when clicking them could not move the index
      forward (next) or at all (previous). */
  lemma DisabledMeansStuck(i: nat, maxIndex: nat)
    ensures PrevDisabled(i) <==> GoPrev(i) == i
    ensures NextDisabled(i, maxIndex) <==> GoNext(i, maxIndex) <= i
  {
  }

  /** Dots are not clamped: with five products three to a view, the second dot shows
      cards 4 and 5 from index 3, beyond MaxIndex 2, and the next arrow is disabled. */
  lemma DotPassesMaxIndex()
    ensures var s := Apply(5, View(0, 3), DotClick(1));
            s.index == 3 && MaxIndex(5, 3) == 2 && NextDisabled(s.index, MaxIndex(5, 3))
  {
  }
}
