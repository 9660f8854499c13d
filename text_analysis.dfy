/**
 * The backend's contour-box analysis: bounding boxes wider than 50 and taller
 * than 15 pixels count as text; the count, the occupied area, a density
 * relative to the image area and a confidence derived from it are reported,
 * and the same boxes are drawn onto the output image. The contours and their
 * bounding boxes come from the vision library and are given here as boxes.
 */
module TextAnalysis {
  import opened Wrappers

  /** A bounding rectangle `(x, y, w, h)`. */
  datatype Box = Box(x: int, y: int, w: int, h: int)

  const MinTextWidth: int := 50
  const MinTextHeight: int := 15

  /** The filter used both when counting and when drawing. */
  function IsTextBox(b: Box): (r: bool)
    ensures r ==> b.w * b.h > MinTextWidth * MinTextHeight
  {
    b.w > MinTextWidth && b.h > MinTextHeight
  }

  /** The boxes that pass the filter, in contour order. */
  function TextBoxes(bs: seq<Box>): (r: seq<Box>)
    ensures |r| <= |bs|
  {
    if bs == [] then []
    else TextBoxes(bs[..|bs| - 1]) + (if IsTextBox(bs[|bs| - 1]) then [bs[|bs| - 1]] else [])
  }

  function SumArea(bs: seq<Box>): int
  {
    if bs == [] then 0 else SumArea(bs[..|bs| - 1]) + bs[|bs| - 1].w * bs[|bs| - 1].h
  }

  /** The rational `num / den`. */
  datatype Ratio = Ratio(num: int, den: nat)

  /** The analysis record returned to the client. */
  datatype Analysis = Analysis(
    textAreas: nat,
    density: Ratio,
    confidence: int,
    totalAreaPx2: nat)

  /** Python's `int()` of a quotient: truncation toward zero. */
  function TruncDiv(a: int, b: int): (q: int)
    requires b > 0
    ensures a >= 0 ==> q * b <= a < q * b + b
    ensures a < 0 ==> q * b - b < a <= q * b
  {
    if a >= 0 then a / b else -((-a) / b)
  }

  /** Occupied area over image area, or 0 when the image has no pixels. */
  function Density(occupied: int, imageArea: nat): (d: Ratio)
    ensures d.den > 0
    ensures imageArea == 0 ==> d.num == 0
    ensures imageArea > 0 ==> d.num * imageArea == occupied * d.den
  {
    if imageArea > 0 then Ratio(occupied, imageArea) else Ratio(0, 1)
  }

  /** `min(100, int(density * 100 + 20))`. */
  function Confidence(d: Ratio): (c: int)
    requires d.den > 0
    ensures c <= 100
    ensures d.num >= 0 ==> c >= 20
    ensures TruncDiv(100 * d.num + 20 * d.den, d.den) < 100 ==> c == TruncDiv(100 * d.num + 20 * d.den, d.den)
    ensures c == 100 <==> TruncDiv(100 * d.num + 20 * d.den, d.den) >= 100
  {
    Min(100, TruncDiv(100 * d.num + 20 * d.den, d.den))
  }

  // ---------------------------------------------------------------------------
  // Properties of the filter

  lemma TextBoxesAppend(bs: seq<Box>, b: Box)
    ensures TextBoxes(bs + [b]) == TextBoxes(bs) + (if IsTextBox(b) then [b] else [])
  {
  }

  /** One more contour: the kept list and the occupied area grow by that box iff it passes. */
  lemma TextBoxesPrefixStep(bs: seq<Box>, i: nat)
    requires i < |bs|
    ensures TextBoxes(bs[..i + 1]) == TextBoxes(bs[..i]) + (if IsTextBox(bs[i]) then [bs[i]] else [])
    ensures SumArea(TextBoxes(bs[..i + 1]))
      == SumArea(TextBoxes(bs[..i])) + (if IsTextBox(bs[i]) then bs[i].w * bs[i].h else 0)
  {
    assert bs[..i + 1] == bs[..i] + [bs[i]];
    TextBoxesAppend(bs[..i], bs[i]);
    if IsTextBox(bs[i]) {
      var kept := TextBoxes(bs[..i]);
      assert (kept + [bs[i]])[..|kept|] == kept;
      assert SumArea(kept + [bs[i]]) == SumArea(kept) + bs[i].w * bs[i].h;
    } else {
      assert TextBoxes(bs[..i + 1]) == TextBoxes(bs[..i]);
    }
  }

  /** A box is kept exactly when it is one of the contours' boxes and passes the filter. */
  lemma {:induction false} TextBoxesMembers(bs: seq<Box>)
    ensures forall b :: b in TextBoxes(bs) <==> b in bs && IsTextBox(b)
  {
    if bs != [] {
      var init, last := bs[..|bs| - 1], bs[|bs| - 1];
      TextBoxesMembers(init);
      assert bs == init + [last];
    }
  }

  /** Every box counted has positive sides, so the occupied area is never negative. */
  lemma {:induction false} TextBoxesAreaNonNegative(bs: seq<Box>)
    ensures SumArea(TextBoxes(bs)) >= 0
  {
    if bs != [] {
      var init, last := bs[..|bs| - 1], bs[|bs| - 1];
      TextBoxesAreaNonNegative(init);
      if IsTextBox(last) {
        var kept := TextBoxes(init);
        assert TextBoxes(bs) == kept + [last];
        assert (kept + [last])[..|kept|] == kept;
        assert last.w * last.h >= last.w * 16 > 0;
      } else {
        assert TextBoxes(bs) == TextBoxes(init);
      }
    }
  }

  /** A box that fails the filter adds nothing to the count or to the occupied area. */
  lemma RejectedBoxContributesNothing(bs: seq<Box>, b: Box)
    requires !IsTextBox(b)
    ensures TextBoxes(bs + [b]) == TextBoxes(bs)
    ensures SumArea(TextBoxes(bs + [b])) == SumArea(TextBoxes(bs))
  {
  }

  // ---------------------------------------------------------------------------
  // The backend operations

  /**
   * The counting loop: count and sum the areas of the boxes that pass the
   * filter, then derive density and confidence.
   */
  method ComputeAnalysis(height: nat, width: nat, contours: seq<Box>) returns (a: Analysis)
    ensures a.textAreas == |TextBoxes(contours)| <= |contours|
    ensures a.density == Density(SumArea(TextBoxes(contours)), height * width)
    ensures height * width == 0 ==> a.density.num == 0
    ensures a.confidence == Confidence(a.density)
    ensures 20 <= a.confidence <= 100
    ensures a.totalAreaPx2 == height * width
  {
    var imageArea := height * width;
    var occupied := 0;
    var count := 0;
    var i := 0;
    while i < |contours|
      invariant 0 <= i <= |contours|
      invariant count == |TextBoxes(contours[..i])|
      invariant occupied == SumArea(TextBoxes(contours[..i]))
    {
      var b := contours[i];
      TextBoxesPrefixStep(contours, i);
      if b.w > MinTextWidth && b.h > MinTextHeight {
        count := count + 1;
        occupied := occupied + b.w * b.h;
      }
      i := i + 1;
    }
    assert contours[..|contours|] == contours;
    TextBoxesAreaNonNegative(contours);
    var density := Density(occupied, imageArea);
    a := Analysis(count, density, Confidence(density), imageArea);
  }

  /** The drawing loop: the rectangles handed to the drawing call, in contour order. */
  method DrawTextBoxes(contours: seq<Box>) returns (drawn: seq<Box>)
    ensures drawn == TextBoxes(contours)
  {
    drawn := [];
    var i := 0;
    while i < |contours|
      invariant 0 <= i <= |contours|
      invariant drawn == TextBoxes(contours[..i])
    {
      var b := contours[i];
      TextBoxesPrefixStep(contours, i);
      if b.w > MinTextWidth && b.h > MinTextHeight {
        drawn := drawn + [b];
      }
      i := i + 1;
    }
    assert contours[..|contours|] == contours;
  }

  /**
   * The endpoint: draw, then analyse the same contours. A box is drawn iff it
   * passes the filter, and as many boxes are drawn as are counted.
   */
  method DetectText(height: nat, width: nat, contours: seq<Box>) returns (drawn: seq<Box>, a: Analysis)
    ensures drawn == TextBoxes(contours)
    ensures forall b :: b in drawn <==> b in contours && IsTextBox(b)
    ensures |drawn| == a.textAreas
    ensures a.density == Density(SumArea(drawn), height * width)
    ensures a.confidence == Confidence(a.density)
    ensures a.totalAreaPx2 == height * width
    ensures 20 <= a.confidence <= 100
  {
    drawn := DrawTextBoxes(contours);
    a := ComputeAnalysis(height, width, contours);
    TextBoxesMembers(contours);
  }
}
