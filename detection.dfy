/**
 * The simulated detection run in the uploader: a random number of random
 * rectangles is drawn over the image, and statistics are derived from their
 * areas. The random draws are parameters.
 */
module Detection {
  import opened History

  /** One simulated text area, with integer position and size. */
  datatype Rect = Rect(x: int, y: int, width: int, height: int)

  function Area(r: Rect): int { r.width * r.height }

  /** Sum of the areas, accumulated from the first rectangle on. */
  function TotalArea(rs: seq<Rect>): int
  {
    if rs == [] then 0 else TotalArea(rs[..|rs| - 1]) + Area(rs[|rs| - 1])
  }

  const MinAreas: nat := 5
  const MaxAreas: nat := 10

  /** `5 + Math.floor(Math.random() * 6)`, where `countDraw` is the floored part, 0 to 5. */
  function NumAreas(countDraw: int): (n: nat)
    requires 0 <= countDraw <= 5
    ensures MinAreas <= n <= MaxAreas
    ensures n - MinAreas == countDraw
  {
    MinAreas + countDraw
  }

  /** The sizes `100 + Math.random() * 300` and `20 + Math.random() * 40`, taken as integers. */
  function SizeInDrawRange(r: Rect): (b: bool)
    ensures b ==> 2000 <= Area(r) <= 399 * 59
  {
    100 <= r.width < 400 && 20 <= r.height < 60
  }

  /**
   * The drawing loop: one rectangle per iteration is recorded in `textAreas`
   * (and stroked onto the canvas) and its area added to `totalTextArea`.
   */
  method GenerateTextAreas(numAreas: nat, draws: seq<Rect>) returns (textAreas: seq<Rect>, totalTextArea: int)
    requires |draws| == numAreas
    ensures textAreas == draws
    ensures |textAreas| == numAreas
    ensures totalTextArea == TotalArea(draws)
  {
    textAreas := [];
    totalTextArea := 0;
    var i := 0;
    while i < numAreas
      invariant 0 <= i <= numAreas
      invariant textAreas == draws[..i]
      invariant totalTextArea == TotalArea(draws[..i])
    {
      var r := draws[i];
      textAreas := textAreas + [r];
      totalTextArea := totalTextArea + Area(r);
      assert draws[..i + 1][..i] == draws[..i];
      i := i + 1;
    }
    assert draws[..numAreas] == draws;
  }

  /**
   * `Math.round(num / den)` computed exactly: the nearest integer, halves
   * rounding up.
   */
  function RoundHalfUp(num: int, den: int): (r: int)
    requires den > 0
    ensures 2 * r * den - den <= 2 * num < 2 * r * den + den
    ensures num >= 0 ==> r >= 0
  {
    var q := (2 * num + den) / (2 * den);
    var m := (2 * num + den) % (2 * den);
    assert 2 * num + den == q * (2 * den) + m && 0 <= m < 2 * den;
    assert 2 * q * den == q * (2 * den);
    q
  }

  /**
   * The statistics record: the count, the total area, the density as a
   * rounded percentage of the image area, the confidence draw and the
   * estimated word count (one word per 100 px²).
   */
  function ComputeStats(numAreas: nat, totalTextArea: int, imageArea: int, confidence: int): (s: TextStats)
    requires imageArea > 0
    ensures s.areasDetected == numAreas
    ensures s.totalArea == totalTextArea
    ensures 2 * s.textDensity * imageArea - imageArea <= 200 * totalTextArea < 2 * s.textDensity * imageArea + imageArea
    ensures 200 * s.estimatedWords - 100 <= 2 * totalTextArea < 200 * s.estimatedWords + 100
    ensures s.confidence == confidence
    ensures totalTextArea >= 0 ==> s.textDensity >= 0 && s.estimatedWords >= 0
  {
    TextStats(
      numAreas,
      totalTextArea,
      RoundHalfUp(100 * totalTextArea, imageArea),
      confidence,
      RoundHalfUp(totalTextArea, 100))
  }

  /** With every size inside its draw range, the total area lies between n·2000 and n·399·59 px². */
  lemma {:induction false} TotalAreaBounds(rs: seq<Rect>)
    requires forall i :: 0 <= i < |rs| ==> SizeInDrawRange(rs[i])
    ensures 2000 * |rs| <= TotalArea(rs) <= 399 * 59 * |rs|
  {
    if rs != [] {
      TotalAreaBounds(rs[..|rs| - 1]);
    }
  }

  /**
   * A completed run reports between 5 and 10 areas, a positive total area,
   * and a non-negative density.
   */
  lemma StatsInRange(countDraw: int, draws: seq<Rect>, imageArea: int, confidence: int)
    requires 0 <= countDraw <= 5 && |draws| == NumAreas(countDraw)
    requires forall i :: 0 <= i < |draws| ==> SizeInDrawRange(draws[i])
    requires imageArea > 0
    ensures var s := ComputeStats(NumAreas(countDraw), TotalArea(draws), imageArea, confidence);
      MinAreas <= s.areasDetected <= MaxAreas &&
      s.totalArea >= 2000 * MinAreas &&
      s.textDensity >= 0 && s.estimatedWords >= 0
  {
    TotalAreaBounds(draws);
  }

  /** A product that exceeds `y · a` for positive `a` has a factor above `y`. */
  lemma CancelPositiveFactor(x: int, y: int, a: int)
    requires a > 0 && x * a > y * a
    ensures x > y
  {
    assert (x - y) * a == x * a - y * a > 0;
  }

  /**
   * Rectangles are neither clamped to the image nor kept apart, so the
   * density can exceed 100%: every completed run over an image of at most
   * 5000 px² reports more than 100.
   */
  lemma DensityCanExceedHundred(countDraw: int, draws: seq<Rect>, imageArea: int, confidence: int)
    requires 0 <= countDraw <= 5 && |draws| == NumAreas(countDraw)
    requires forall i :: 0 <= i < |draws| ==> SizeInDrawRange(draws[i])
    requires 0 < imageArea <= 5000
    ensures ComputeStats(NumAreas(countDraw), TotalArea(draws), imageArea, confidence).textDensity > 100
  {
    TotalAreaBounds(draws);
    var d := ComputeStats(NumAreas(countDraw), TotalArea(draws), imageArea, confidence).textDensity;
    assert (2 * d + 1) * imageArea > 2000000 >= 400 * imageArea;
    CancelPositiveFactor(2 * d + 1, 400, imageArea);
  }
}
