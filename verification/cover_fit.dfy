/**
 The cover-fit geometry of `resizeElement` (inside `resizeVideoToContainer`):
 from an outer box `outerWidth x outerHeight` and the banner's aspect ratio it
 computes the video element's width, height, left and top. Arithmetic is exact
 over `real`; the pixel strings written to `element.style` are not modelled.
 */
module CoverFit {

  /** The ratio every banner fixes at construction: 16/9. */
  const AspectRatio: real := 16.0 / 9.0

  /** The four numbers written to the element's style, in pixels. */
  datatype Placement = Placement(width: real, height: real, left: real, top: real)

  /** A box a window or element can report: neither side is negative. The ratio
      is positive (it is always 16/9). */
  predicate MeasuredBox(outerWidth: real, outerHeight: real, aspect: real)
  {
    outerWidth >= 0.0 && outerHeight >= 0.0 && aspect > 0.0
  }

  /** The branch test `checkRatio`, `outerWidth / outerHeight > aspect`, under
      JavaScript division: over a zero height a positive width gives `Infinity`,
      which exceeds every ratio, and a zero width gives `NaN`, which compares
      false. Either way the test holds exactly when the box is STRICTLY wider
      than the ratio. */
  function WiderThanRatio(outerWidth: real, outerHeight: real, aspect: real): (wider: bool)
    requires MeasuredBox(outerWidth, outerHeight, aspect)
    ensures wider <==> outerWidth > outerHeight * aspect
  {
    if outerHeight == 0.0 then outerWidth > 0.0
    else outerWidth / outerHeight > aspect
  }

  /** The placement `resizeElement` writes, with its offset formulas exactly as
      index.js states them. On the axis the box fixes (width when the box is
      wider than the ratio, height otherwise) the element matches the box and
      its offset is zero. */
  function ResizeElement(outerWidth: real, outerHeight: real, aspect: real): (p: Placement)
    requires MeasuredBox(outerWidth, outerHeight, aspect)
    ensures WiderThanRatio(outerWidth, outerHeight, aspect) ==> p.width == outerWidth && p.left == 0.0
    ensures !WiderThanRatio(outerWidth, outerHeight, aspect) ==> p.height == outerHeight && p.top == 0.0
  {
    var checkRatio := WiderThanRatio(outerWidth, outerHeight, aspect);
    Placement(
      if checkRatio then outerWidth else outerHeight * aspect,
      if checkRatio then outerWidth / aspect else outerHeight,
      if checkRatio then 0.0 else (outerWidth / aspect - outerHeight) / 2.0,
      if checkRatio then (outerHeight * aspect - outerWidth) / 2.0 else 0.0)
  }

  /** The element keeps the banner's aspect ratio in both branches. */
  lemma ResizeKeepsAspectRatio(outerWidth: real, outerHeight: real, aspect: real)
    requires MeasuredBox(outerWidth, outerHeight, aspect)
    ensures ResizeElement(outerWidth, outerHeight, aspect).width
         == aspect * ResizeElement(outerWidth, outerHeight, aspect).height
  {
  }

  /** Cover, not contain: the element is at least as wide and as tall as the box. */
  lemma ResizeCoversBox(outerWidth: real, outerHeight: real, aspect: real)
    requires MeasuredBox(outerWidth, outerHeight, aspect)
    ensures ResizeElement(outerWidth, outerHeight, aspect).width >= outerWidth
    ensures ResizeElement(outerWidth, outerHeight, aspect).height >= outerHeight
  {
  }

  /** The placement is the SMALLEST size of the given ratio that covers the box:
      every other covering size with that ratio is at least as large on both axes. */
  lemma ResizeIsSmallestCover(outerWidth: real, outerHeight: real, aspect: real, width: real, height: real)
    requires MeasuredBox(outerWidth, outerHeight, aspect)
    requires width == aspect * height && width >= outerWidth && height >= outerHeight
    ensures ResizeElement(outerWidth, outerHeight, aspect).width <= width
    ensures ResizeElement(outerWidth, outerHeight, aspect).height <= height
  {
  }

  /** Both offsets are never positive: the element never leaves a gap at the
      top or left edge of the box. */
  lemma ResizeOffsetsNonPositive(outerWidth: real, outerHeight: real, aspect: real)
    requires MeasuredBox(outerWidth, outerHeight, aspect)
    ensures ResizeElement(outerWidth, outerHeight, aspect).left <= 0.0
    ensures ResizeElement(outerWidth, outerHeight, aspect).top <= 0.0
  {
  }

  /** The literal offsets against true centring, which would shift the element by
      half the overflow on each axis: the top offset is `aspect` times the centred
      one and the left offset is the centred one divided by `aspect`. For every
      ratio other than 1 (16/9 in particular) an offset is centred exactly when
      it is zero. */
  lemma ResizeOffsetsAgainstCentring(outerWidth: real, outerHeight: real, aspect: real)
    requires MeasuredBox(outerWidth, outerHeight, aspect)
    ensures var p := ResizeElement(outerWidth, outerHeight, aspect);
      && p.top == aspect * ((outerHeight - p.height) / 2.0)
      && p.left == ((outerWidth - p.width) / 2.0) / aspect
    ensures var p := ResizeElement(outerWidth, outerHeight, aspect);
      aspect != 1.0 ==>
        && (p.top == (outerHeight - p.height) / 2.0 <==> p.top == 0.0)
        && (p.left == (outerWidth - p.width) / 2.0 <==> p.left == 0.0)
  {
    var p := ResizeElement(outerWidth, outerHeight, aspect);
    var centredTop := (outerHeight - p.height) / 2.0;
    var centredLeft := (outerWidth - p.width) / 2.0;
    assert p.top == aspect * centredTop;
    assert p.left * aspect == centredLeft;
    if aspect != 1.0 {
      ScaledEqualsOnlyAtZero(centredTop, p.top, aspect);
      ScaledEqualsOnlyAtZero(p.left, centredLeft, aspect);
    }
  }

  /** A value scaled by a positive factor other than 1 is unchanged only at zero. */
  lemma ScaledEqualsOnlyAtZero(x: real, scaled: real, factor: real)
    requires factor > 0.0 && factor != 1.0 && scaled == factor * x
    ensures scaled == x <==> scaled == 0.0
  {
    if x != 0.0 {
      var excess := factor - 1.0;
      assert excess * x != 0.0;
      assert scaled == x + excess * x;
      assert scaled != 0.0;
    }
  }

  /** The branch test is strict: a box of exactly the banner's ratio takes the
      else branch, and the element then fills it with both offsets zero. */
  lemma ResizeAtExactRatio(outerWidth: real, outerHeight: real, aspect: real)
    requires MeasuredBox(outerWidth, outerHeight, aspect)
    requires outerWidth == outerHeight * aspect
    ensures !WiderThanRatio(outerWidth, outerHeight, aspect)
    ensures ResizeElement(outerWidth, outerHeight, aspect) == Placement(outerWidth, outerHeight, 0.0, 0.0)
  {
  }

  /** Boxes with a zero side, which JavaScript divides through as `NaN` or
      `Infinity` in the branch test only: a zero-width box takes the else branch
      and a zero-height box with some width takes the wide one, and both still
      get finite numbers. */
  lemma ResizeDegenerateBoxes(outerWidth: real, outerHeight: real, aspect: real)
    requires MeasuredBox(outerWidth, outerHeight, aspect)
    ensures outerWidth == 0.0 ==>
      ResizeElement(outerWidth, outerHeight, aspect) == Placement(outerHeight * aspect, outerHeight, -outerHeight / 2.0, 0.0)
    ensures outerHeight == 0.0 && outerWidth > 0.0 ==>
      ResizeElement(outerWidth, outerHeight, aspect) == Placement(outerWidth, outerWidth / aspect, 0.0, -outerWidth / 2.0)
  {
  }

  /** Scaling the box by `k` scales every number of the placement by `k`. */
  lemma ResizeScales(outerWidth: real, outerHeight: real, aspect: real, k: real)
    requires MeasuredBox(outerWidth, outerHeight, aspect) && k > 0.0
    ensures var p := ResizeElement(outerWidth, outerHeight, aspect);
      ResizeElement(k * outerWidth, k * outerHeight, aspect)
        == Placement(k * p.width, k * p.height, k * p.left, k * p.top)
  {
    // The branch test is invariant under scaling, since k * (w - h * aspect) has the sign of w - h * aspect.
    assert k * outerWidth - (k * outerHeight) * aspect == k * (outerWidth - outerHeight * aspect);
    assert WiderThanRatio(k * outerWidth, k * outerHeight, aspect) == WiderThanRatio(outerWidth, outerHeight, aspect);
    DivScales(outerWidth, k, aspect);
    if WiderThanRatio(outerWidth, outerHeight, aspect) {
      assert ((k * outerHeight) * aspect - k * outerWidth) / 2.0 == k * ((outerHeight * aspect - outerWidth) / 2.0);
    } else {
      assert (k * outerHeight) * aspect == k * (outerHeight * aspect);
      assert ((k * outerWidth) / aspect - k * outerHeight) / 2.0 == k * ((outerWidth / aspect - outerHeight) / 2.0);
    }
  }

  /** Dividing commutes with scaling the dividend. */
  lemma DivScales(x: real, k: real, d: real)
    requires d != 0.0
    ensures (k * x) / d == k * (x / d)
  {
    var q := x / d;
    assert q * d == x;
    assert (k * q) * d == k * x;
  }

  /** Full-bleed cover with the literal offsets: for a ratio between 1/2 and 2
      (16/9 among them) the element's far edges, `left + width` and
      `top + height`, still reach the far edges of the box, so with the near
      edges at or before 0 the element covers the whole box. In the wide
      branch the bottom overshoot is (1/aspect - 1/2) * (W - H * aspect); in the
      other branch the right overshoot is (aspect - 1/2) * (H - W / aspect). */
  lemma ResizeFarEdgesCover(outerWidth: real, outerHeight: real, aspect: real)
    requires MeasuredBox(outerWidth, outerHeight, aspect)
    requires 0.5 <= aspect <= 2.0
    ensures var p := ResizeElement(outerWidth, outerHeight, aspect);
      p.left + p.width >= outerWidth && p.top + p.height >= outerHeight
  {
    var p := ResizeElement(outerWidth, outerHeight, aspect);
    var inverse := 1.0 / aspect;
    assert inverse * aspect == 1.0;
    if WiderThanRatio(outerWidth, outerHeight, aspect) {
      assert p.height == outerWidth * inverse;
      var slack, excess := inverse - 0.5, outerWidth - outerHeight * aspect;
      assert p.top + p.height - outerHeight == slack * excess;
      assert slack >= 0.0 && excess >= 0.0;
      assert slack * excess >= 0.0;
    } else {
      assert p.left == (outerWidth * inverse - outerHeight) / 2.0;
      assert outerHeight - outerWidth * inverse >= 0.0 by {
        assert outerWidth <= outerHeight * aspect;
        assert outerWidth * inverse <= outerHeight * aspect * inverse;
      }
      var slack, excess := aspect - 0.5, outerHeight - outerWidth * inverse;
      assert p.left + p.width - outerWidth == slack * excess;
      assert slack >= 0.0 && excess >= 0.0;
      assert slack * excess >= 0.0;
    }
  }

  /** The bound on the ratio is needed: at ratio 3 a wide box leaves its bottom
      edge uncovered, because the top offset moves the element up by more than
      its overshoot. */
  lemma ResizeFarEdgeMissesAtRatioThree()
    ensures var p := ResizeElement(10.0, 1.0, 3.0);
      p.top + p.height < 1.0
  {
  }

  /** Three boxes at the banner's ratio 16/9: one exactly at the ratio, one
      narrower, one wider. */
  lemma ResizeExamples()
    ensures ResizeElement(1600.0, 900.0, AspectRatio) == Placement(1600.0, 900.0, 0.0, 0.0)
    ensures ResizeElement(1920.0, 1200.0, AspectRatio) == Placement(6400.0 / 3.0, 1200.0, -60.0, 0.0)
    ensures ResizeElement(2560.0, 900.0, AspectRatio) == Placement(2560.0, 1440.0, 0.0, -480.0)
  {
  }
}
