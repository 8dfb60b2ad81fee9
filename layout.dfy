/**
 * The fit-to-box arithmetic of the appendix pages (utils/pdfGenerator.ts):
 * a frame is scaled by min(boxWidth / width, boxHeight / height) so that it
 * fills the content box on one axis without leaving it on the other.
 */
module Layout {
  import opened Types

  /** jsPDF's default page, A4 measured in millimetres (595.28 x 841.89 points). */
  const PageWidth: real := 595.28 * 25.4 / 72.0
  const PageHeight: real := 841.89 * 25.4 / 72.0

  /** The box a frame is fitted into: the page less 14 mm on each side. */
  const BoxWidth: Positive := PageWidth - 28.0
  const BoxHeight: Positive := PageHeight - 28.0

  function Min(a: real, b: real): real
  {
    if a <= b then a else b
  }

  /** The scale factor `Math.min(boxWidth / width, boxHeight / height)`. */
  function FitRatio(source: Dims, boxWidth: Positive, boxHeight: Positive): (ratio: Positive)
  {
    Min(boxWidth / source.width, boxHeight / source.height)
  }

  lemma ScaleIsPositive(x: Positive, ratio: Positive)
    ensures x * ratio > 0.0
  {
  }

  /**
   * The drawn size of a frame: it fits inside the box, keeps the frame's
   * aspect ratio, and touches the box on at least one axis.
   */
  function Fit(source: Dims, boxWidth: Positive, boxHeight: Positive): (r: Dims)
    ensures r.width <= boxWidth && r.height <= boxHeight
    ensures r.width / r.height == source.width / source.height
    ensures r.width == boxWidth || r.height == boxHeight
  {
    var ratio := FitRatio(source, boxWidth, boxHeight);
    ScaleIsPositive(source.width, ratio);
    ScaleIsPositive(source.height, ratio);
    var r := Dims(source.width * ratio, source.height * ratio);
    FitBounds(source, boxWidth, boxHeight, ratio);
    r
  }

  lemma FitBounds(source: Dims, boxWidth: Positive, boxHeight: Positive, ratio: Positive)
    requires ratio == FitRatio(source, boxWidth, boxHeight)
    ensures source.width * ratio <= boxWidth && source.height * ratio <= boxHeight
    ensures (source.width * ratio) / (source.height * ratio) == source.width / source.height
    ensures source.width * ratio == boxWidth || source.height * ratio == boxHeight
  {
    var w, h := source.width, source.height;
    var rw, rh := boxWidth / w, boxHeight / h;
    assert w * rw == boxWidth;
    assert h * rh == boxHeight;
    if rw <= rh {
      assert ratio == rw;
      assert h * ratio <= h * rh;
    } else {
      assert ratio == rh;
      assert w * ratio <= w * rw;
    }
    assert (w * ratio) / (h * ratio) == w / h;
  }

  lemma QuotientAtLeastOne(a: Positive, b: Positive)
    requires b <= a
    ensures a / b >= 1.0
  {
    assert a / b * b == a;
  }

  /** Fitting an already fitted frame into the same box changes nothing. */
  lemma FitIdempotent(source: Dims, boxWidth: Positive, boxHeight: Positive)
    ensures Fit(Fit(source, boxWidth, boxHeight), boxWidth, boxHeight) == Fit(source, boxWidth, boxHeight)
  {
    var r := Fit(source, boxWidth, boxHeight);
    QuotientAtLeastOne(boxWidth, r.width);
    QuotientAtLeastOne(boxHeight, r.height);
    assert r.width == boxWidth ==> boxWidth / r.width == 1.0;
    assert r.height == boxHeight ==> boxHeight / r.height == 1.0;
    assert FitRatio(r, boxWidth, boxHeight) == 1.0;
  }

  /** A 1000 x 500 frame in a 400 x 400 box is drawn 400 x 200. */
  lemma FitExample()
    ensures Fit(Dims(1000.0, 500.0), 400.0, 400.0) == Dims(400.0, 200.0)
  {
  }
}
