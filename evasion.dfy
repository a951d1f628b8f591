/**
 * The evasive reject button. Once the visitor has rejected at least once,
 * the button is fixed with its top-left corner at a resting place, and
 * pointer approach or touch translates it by a random offset. Each offset is
 * bounded by half the viewport less half the button's own size and a fixed
 * edge padding. The random draws of the source are parameters `rx` and `ry`
 * in [0, 1).
 *
 * The resting corner is (W/2 - 50, H/2 - 25) whatever the button's size, so
 * the button rests centred only when it is 100 by 50. For a wider button the
 * largest translations push it past the padding, and past the viewport edge
 * once it is wider than 140 (`OverflowAsWritten`, `PaddingBrokenAsWritten`).
 * Resting at the centred corner keeps every translation inside
 * (`MovedButtonInsideViewport`).
 */
module Evasion {

  datatype Option<T> = None | Some(value: T)

  /** Width and height, in CSS pixels. */
  datatype Size = Size(width: real, height: real)

  /** A point, or the translation of the button from its resting place. */
  datatype Position = Position(x: real, y: real)

  /** Gap kept between the displaced button and the viewport edge. */
  const EdgePadding: real := 20.0

  /** Size assumed for the button while it has not been laid out. */
  const FallbackSize: Size := Size(100.0, 50.0)

  function Abs(x: real): real {
    if x < 0.0 then -x else x
  }

  /** The button evades only after the first rejection. */
  predicate IsRunaway(noCount: nat)
    ensures IsRunaway(noCount) <==> noCount != 0
  {
    noCount >= 1
  }

  /** The measured size of the button, or the fallback when it is not laid out. */
  function ButtonSize(measured: Option<Size>): (s: Size)
    ensures measured.None? ==> s == FallbackSize
    ensures measured.Some? ==> s == measured.value
  {
    match measured
    case Some(m) => m
    case None => FallbackSize
  }

  /**
   * Largest translation along one axis: half the viewport less half the
   * button and the edge padding. A button centred in the viewport and
   * translated that far has its far edge exactly `EdgePadding` inside the
   * viewport edge.
   */
  function MaxDisplacement(viewport: real, control: real): (m: real)
    ensures m + control / 2.0 + EdgePadding == viewport / 2.0
  {
    viewport / 2.0 - control / 2.0 - EdgePadding
  }

  /** `maxX` and `maxY` of the current viewport and button. */
  function Bounds(viewport: Size, measured: Option<Size>): (b: Position)
    ensures b.x == MaxDisplacement(viewport.width, ButtonSize(measured).width)
    ensures b.y == MaxDisplacement(viewport.height, ButtonSize(measured).height)
  {
    var s := ButtonSize(measured);
    Position(MaxDisplacement(viewport.width, s.width), MaxDisplacement(viewport.height, s.height))
  }

  lemma MulNonNegative(x: real, y: real)
    requires x >= 0.0 && y >= 0.0
    ensures x * y >= 0.0
  {
  }

  /** Scaling by a factor in [-1, 1] keeps a value within the magnitude of the scaled one. */
  lemma ScaleWithin(f: real, m: real)
    requires -1.0 <= f <= 1.0
    ensures Abs(f * m) <= Abs(m)
  {
    var a := Abs(m);
    MulNonNegative(f + 1.0, a);
    MulNonNegative(1.0 - f, a);
    assert -a <= f * a <= a;
    assert f * m == f * a || f * m == -(f * a);
  }

  /** A random displacement in [-max, max) scaled from a draw `r` in [0, 1). */
  function Offset(r: real, max: real): (d: real)
    requires 0.0 <= r < 1.0
    ensures Abs(d) <= Abs(max)
    ensures max >= 0.0 ==> -max <= d <= max
  {
    ScaleWithin(r * 2.0 - 1.0, max);
    (r * 2.0 - 1.0) * max
  }

  /** Every displacement in [-max, max) is reached by some draw. */
  lemma OffsetCovers(t: real, max: real)
    requires max > 0.0
    requires -max <= t < max
    ensures exists r :: 0.0 <= r < 1.0 && Offset(r, max) == t
  {
    var q := t / max;
    assert q * max == t;
    assert -1.0 <= q < 1.0;
    var r := (q + 1.0) / 2.0;
    assert (r * 2.0 - 1.0) * max == t;
    assert 0.0 <= r < 1.0 && Offset(r, max) == t;
  }

  /** Where `moveButton` puts the button: nowhere new before the first rejection. */
  function NextPosition(noCount: nat, current: Position, viewport: Size, measured: Option<Size>,
                        rx: real, ry: real): (p: Position)
    requires 0.0 <= rx < 1.0 && 0.0 <= ry < 1.0
    ensures !IsRunaway(noCount) ==> p == current
    ensures IsRunaway(noCount) ==>
      Abs(p.x) <= Abs(Bounds(viewport, measured).x) && Abs(p.y) <= Abs(Bounds(viewport, measured).y)
  {
    if noCount < 1 then current
    else
      var b := Bounds(viewport, measured);
      Position(Offset(rx, b.x), Offset(ry, b.y))
  }

  /**
   * Resting at the centred corner instead, a moved button lies entirely
   * inside the viewport with the edge padding to spare, for every draw,
   * whenever the viewport leaves room for the button.
   */
  lemma MovedButtonInsideViewport(noCount: nat, current: Position, viewport: Size,
                                  measured: Option<Size>, rx: real, ry: real)
    requires 0.0 <= rx < 1.0 && 0.0 <= ry < 1.0
    requires IsRunaway(noCount)
    requires ButtonSize(measured).width + 2.0 * EdgePadding <= viewport.width
    requires ButtonSize(measured).height + 2.0 * EdgePadding <= viewport.height
    ensures var s := ButtonSize(measured);
            var p := NextPosition(noCount, current, viewport, measured, rx, ry);
            InsideWithPadding(Placed(CentredCorner(viewport, s), s, p), viewport)
  {
  }

  /** 1000 by 800 viewport, button not yet measured: maxX is 430 and maxY is 355. */
  lemma WorkedBounds()
    ensures Bounds(Size(1000.0, 800.0), None) == Position(430.0, 355.0)
    ensures Bounds(Size(1000.0, 800.0), Some(Size(100.0, 50.0))) == Position(430.0, 355.0)
  {
  }

  /** Where the runaway button's top-left corner rests: fixed offsets of 50 and 25 from the viewport centre. */
  function RestCorner(viewport: Size): (c: Position)
    ensures c == CentredCorner(viewport, FallbackSize)
  {
    Position(viewport.width / 2.0 - 50.0, viewport.height / 2.0 - 25.0)
  }

  /** The top-left corner that centres a button of size `s` in the viewport. */
  function CentredCorner(viewport: Size, s: Size): (c: Position)
    ensures c.x + s.width / 2.0 == viewport.width / 2.0
    ensures c.y + s.height / 2.0 == viewport.height / 2.0
  {
    Position(viewport.width / 2.0 - s.width / 2.0, viewport.height / 2.0 - s.height / 2.0)
  }

  /** The resting corner centres the button exactly when the button is 100 by 50. */
  lemma RestCentredOnlyForFallback(viewport: Size, s: Size)
    ensures RestCorner(viewport) == CentredCorner(viewport, s) <==> s == FallbackSize
  {
  }

  /** Edges of a button on screen, in CSS pixels from the viewport's top-left corner. */
  datatype Box = Box(left: real, top: real, right: real, bottom: real)

  /** The box of a button of size `s` resting at `corner` and translated by `p`. */
  function Placed(corner: Position, s: Size, p: Position): (b: Box)
    ensures b.right - b.left == s.width && b.bottom - b.top == s.height
    ensures b.left - corner.x == p.x && b.top - corner.y == p.y
  {
    Box(corner.x + p.x, corner.y + p.y, corner.x + p.x + s.width, corner.y + p.y + s.height)
  }

  /** The box keeps at least `EdgePadding` from every viewport edge. */
  predicate InsideWithPadding(b: Box, viewport: Size) {
    EdgePadding <= b.left && b.right <= viewport.width - EdgePadding &&
    EdgePadding <= b.top && b.bottom <= viewport.height - EdgePadding
  }

  /**
   * The gaps to the viewport edges of a moved button as the page places it:
   * at least w/2 - 30 on the left, 70 - w/2 on the right, h/2 - 5 at the top
   * and 45 - h/2 at the bottom. All four are 20 only for a 100 by 50 button.
   */
  lemma GapsAsWritten(noCount: nat, current: Position, viewport: Size,
                      measured: Option<Size>, rx: real, ry: real)
    requires 0.0 <= rx < 1.0 && 0.0 <= ry < 1.0
    requires IsRunaway(noCount)
    requires ButtonSize(measured).width + 2.0 * EdgePadding <= viewport.width
    requires ButtonSize(measured).height + 2.0 * EdgePadding <= viewport.height
    ensures var s := ButtonSize(measured);
            var b := Placed(RestCorner(viewport), s, NextPosition(noCount, current, viewport, measured, rx, ry));
            b.left >= s.width / 2.0 - 30.0 && viewport.width - b.right >= 70.0 - s.width / 2.0 &&
            b.top >= s.height / 2.0 - 5.0 && viewport.height - b.bottom >= 45.0 - s.height / 2.0
  {
  }

  /**
   * A 260 by 48 button in a 1000 by 800 viewport: maxX is 350, the draw 0.99
   * translates by 343, and the right edge lands at 1053, beyond the viewport,
   * although the viewport leaves room for the button and both paddings.
   */
  lemma OverflowAsWritten()
    ensures var viewport := Size(1000.0, 800.0);
            var measured := Some(Size(260.0, 48.0));
            var p := NextPosition(1, Position(0.0, 0.0), viewport, measured, 0.99, 0.5);
            ButtonSize(measured).width + 2.0 * EdgePadding <= viewport.width &&
            Bounds(viewport, measured).x == 350.0 && p.x == 343.0 &&
            Placed(RestCorner(viewport), ButtonSize(measured), p).right == 1053.0
  {
  }

  /** Any button wider than 100 that fits is pushed past the right-hand padding by some draw. */
  lemma PaddingBrokenAsWritten(noCount: nat, current: Position, viewport: Size, s: Size, ry: real)
    requires 0.0 <= ry < 1.0
    requires IsRunaway(noCount)
    requires s.width > FallbackSize.width
    requires s.width + 2.0 * EdgePadding <= viewport.width
    ensures exists rx :: (0.0 <= rx < 1.0 &&
      Placed(RestCorner(viewport), s, NextPosition(noCount, current, viewport, Some(s), rx, ry)).right
        > viewport.width - EdgePadding)
  {
    var maxX := Bounds(viewport, Some(s)).x;
    assert maxX == viewport.width / 2.0 - s.width / 2.0 - EdgePadding;
    var d := s.width / 2.0 - 50.0;
    var t := if d > maxX then 0.0 else maxX - d / 2.0;
    var rx: real;
    if maxX == 0.0 {
      rx := 0.5;
      assert Offset(rx, maxX) == t;
    } else {
      OffsetCovers(t, maxX);
      rx :| 0.0 <= rx < 1.0 && Offset(rx, maxX) == t;
    }
    var p := NextPosition(noCount, current, viewport, Some(s), rx, ry);
    assert p.x == t;
    var b := Placed(RestCorner(viewport), s, p);
    assert b.right == viewport.width / 2.0 - 50.0 + t + s.width;
  }

  /** The reject button's own state: its displacement from the resting place. */
  class NoButton {
    var position: Position

    constructor ()
      ensures position == Position(0.0, 0.0)
    {
      position := Position(0.0, 0.0);
    }

    /** Reacts to pointer approach or touch, with random draws `rx`, `ry`. */
    method MoveButton(noCount: nat, viewport: Size, measured: Option<Size>, rx: real, ry: real)
      requires 0.0 <= rx < 1.0 && 0.0 <= ry < 1.0
      modifies this
      ensures position == NextPosition(noCount, old(position), viewport, measured, rx, ry)
      ensures noCount < 1 ==> position == old(position)
      ensures noCount >= 1 ==>
        Abs(position.x) <= Abs(Bounds(viewport, measured).x) &&
        Abs(position.y) <= Abs(Bounds(viewport, measured).y)
    {
      if noCount < 1 {
        return;
      }
      var buttonWidth := if measured.Some? then measured.value.width else FallbackSize.width;
      var buttonHeight := if measured.Some? then measured.value.height else FallbackSize.height;
      var maxX := viewport.width / 2.0 - buttonWidth / 2.0 - EdgePadding;
      var maxY := viewport.height / 2.0 - buttonHeight / 2.0 - EdgePadding;
      var randomX := (rx * 2.0 - 1.0) * maxX;
      var randomY := (ry * 2.0 - 1.0) * maxY;
      assert Position(maxX, maxY) == Bounds(viewport, measured);
      assert randomX == Offset(rx, maxX) && randomY == Offset(ry, maxY);
      position := Position(randomX, randomY);
    }
  }
}
