/**
 * The bounding-box rule repeated by every image-creating path: an image larger than
 * 600 x 600 is scaled down, keeping its aspect ratio, until it fits.  Modelled once,
 * over the reals, for positive natural sizes.
 */
module Fit {

  const MaxWidth: real := 600.0
  const MaxHeight: real := 600.0

  datatype Dims = Dims(width: real, height: real)

  /** The natural size of a decoded image (`naturalWidth`, `naturalHeight`). */
  type PositiveDims = d: Dims | d.width > 0.0 && d.height > 0.0 witness Dims(1.0, 1.0)

  /** The size the image is drawn at (the `getDimensions` rule). */
  function FitWithin(d: PositiveDims): Dims {
    if d.width > MaxWidth || d.height > MaxHeight then
      var aspectRatio := d.width / d.height;
      if d.width / MaxWidth > d.height / MaxHeight then Dims(MaxWidth, MaxWidth / aspectRatio)
      else Dims(MaxHeight * aspectRatio, MaxHeight)
    else d
  }

  /** `getDimensions` as the three image paths write it: start from the natural size and
      reassign `width` and `height` when the image is too large. */
  method GetDimensions(naturalWidth: real, naturalHeight: real) returns (width: real, height: real)
    requires naturalWidth > 0.0 && naturalHeight > 0.0
    ensures Dims(width, height) == FitWithin(Dims(naturalWidth, naturalHeight))
  {
    width := naturalWidth;
    height := naturalHeight;
    if width > MaxWidth || height > MaxHeight {
      var aspectRatio := width / height;
      if width / MaxWidth > height / MaxHeight {
        width := MaxWidth;
        height := width / aspectRatio;
      } else {
        height := MaxHeight;
        width := height * aspectRatio;
      }
    }
  }

  /** The fitted size lies within 600 x 600, is the natural size when that already fits,
      touches the box on one side otherwise, keeps the aspect ratio and never enlarges. */
  lemma FitWithinSpec(d: PositiveDims)
    ensures var r := FitWithin(d);
      && 0.0 < r.width <= MaxWidth && 0.0 < r.height <= MaxHeight
      && (d.width <= MaxWidth && d.height <= MaxHeight ==> r == d)
      && (d.width > MaxWidth || d.height > MaxHeight ==> r.width == MaxWidth || r.height == MaxHeight)
      && r.width * d.height == r.height * d.width
      && r.width <= d.width && r.height <= d.height
  {
    var w, h := d.width, d.height;
    var r := FitWithin(d);
    if w > MaxWidth || h > MaxHeight {
      DivCompare(w, h, MaxWidth);
      if w / MaxWidth > h / MaxHeight {
        FitWide(w, h);
        var rh := MaxWidth / (w / h);
        assert r == Dims(MaxWidth, rh);
        assert r.width * h == rh * w;
      } else {
        FitTall(w, h);
        var rw := MaxHeight * (w / h);
        assert r == Dims(rw, MaxHeight);
        assert r.width * h == MaxHeight * w;
      }
    } else {
      MulComm(w, h);
    }
  }

  /** A landscape image taller or wider than the box: full width, height scaled. */
  lemma FitWide(w: real, h: real)
    requires h > 0.0 && w > h && w > MaxWidth
    ensures var rh := MaxWidth / (w / h);
      0.0 < rh <= MaxHeight && rh < h && MaxWidth * h == rh * w
  {
    var a := w / h;
    DivMul(w, h);
    PosDiv(w, h);
    var rh := MaxWidth / a;
    DivMul(MaxWidth, a);
    PosDiv(MaxWidth, a);
    assert rh * w == MaxWidth * h by {
      MulAssoc(rh, a, h);
    }
    MulStrict(MaxWidth, w, h);
    assert rh * w < h * w;
    CancelLt(rh, h, w);
    assert 1.0 < a by {
      assert 1.0 * h == h;
      CancelLt(1.0, a, h);
    }
    MulMonotone(1.0, a, rh);
  }

  /** A portrait (or square) image taller than the box: full height, width scaled. */
  lemma FitTall(w: real, h: real)
    requires w > 0.0 && w <= h && h > MaxHeight
    ensures var rw := MaxHeight * (w / h);
      0.0 < rw <= MaxWidth && rw <= w && rw * h == MaxHeight * w
  {
    var a := w / h;
    DivMul(w, h);
    PosDiv(w, h);
    var rw := MaxHeight * a;
    assert rw * h == MaxHeight * w by {
      MulAssoc(MaxHeight, a, h);
    }
    assert MaxHeight * w <= h * w by {
      MulMonotone(MaxHeight, h, w);
    }
    assert rw * h <= w * h;
    CancelLe(rw, w, h);
    assert MaxHeight * w <= MaxHeight * h;
    CancelLe(rw, MaxWidth, h);
    PosMul(MaxHeight, a);
  }

  lemma DivMul(x: real, y: real)
    requires y != 0.0
    ensures (x / y) * y == x
  {
  }

  lemma PosDiv(x: real, y: real)
    requires x > 0.0 && y > 0.0
    ensures x / y > 0.0
  {
  }

  lemma PosMul(x: real, y: real)
    requires x > 0.0 && y > 0.0
    ensures x * y > 0.0
  {
  }

  lemma MulComm(x: real, y: real)
    ensures x * y == y * x
  {
  }

  lemma MulAssoc(x: real, y: real, z: real)
    ensures (x * y) * z == x * (y * z)
  {
  }

  lemma DivCompare(x: real, y: real, z: real)
    requires z > 0.0
    ensures x / z > y / z <==> x > y
  {
    DivMul(x, z);
    DivMul(y, z);
    if x / z > y / z {
      CancelLt(y / z, x / z, z);
      MulMonotone(y / z, x / z, z);
    }
  }

  lemma MulStrict(x: real, y: real, z: real)
    requires x < y && z > 0.0
    ensures x * z < y * z
  {
  }

  lemma MulMonotone(x: real, y: real, z: real)
    requires x <= y && z > 0.0
    ensures x * z <= y * z
  {
  }

  lemma CancelLe(x: real, y: real, z: real)
    requires z > 0.0 && x * z <= y * z
    ensures x <= y
  {
  }

  lemma CancelLt(x: real, y: real, z: real)
    requires z > 0.0 && x * z < y * z
    ensures x < y
  {
  }

  /** The fitted box is the largest box of the image's shape that fits: any box with the
      same aspect ratio inside 600 x 600 is no wider. */
  lemma FitWithinIsLargest(d: PositiveDims, w: real, h: real)
    requires 0.0 < w <= MaxWidth && 0.0 < h <= MaxHeight && w * d.height == h * d.width
    requires d.width > MaxWidth || d.height > MaxHeight
    ensures w <= FitWithin(d).width && h <= FitWithin(d).height
  {
    var r := FitWithin(d);
    FitWithinSpec(d);
    if r.width == MaxWidth {
      MulMonotone(w, r.width, d.height);
      SameRatioLe(w, h, r.width, r.height, d.width, d.height);
    } else {
      MulMonotone(h, r.height, d.width);
      MulComm(w, d.height);
      MulComm(h, d.width);
      MulComm(r.width, d.height);
      MulComm(r.height, d.width);
      SameRatioLe(h, w, r.height, r.width, d.height, d.width);
    }
  }

  /** Two boxes of the ratio `x : y`: the one no wider is no taller. */
  lemma SameRatioLe(w: real, h: real, w': real, h': real, x: real, y: real)
    requires x > 0.0 && y > 0.0
    requires w * y == h * x && w' * y == h' * x && w * y <= w' * y
    ensures w <= w' && h <= h'
  {
    CancelLe(w, w', y);
    assert h * x <= h' * x;
    CancelLe(h, h', x);
  }
}
