/**
 * The upload step of the generator component: an image whose sides exceed
 * 2000 pixels is scaled down by one common ratio before its pixels are read,
 * and choosing no file does nothing. Sizes are exact reals; the browser
 * truncates the canvas size to whole pixels.
 */
module ImageGenerator {
  import opened PaintTypes
  import opened RealFacts

  const MaxDimension: real := 2000.0

  /**
   * `Math.min(2000 / width, 2000 / height)`. A zero side divides to Infinity,
   * which never wins the minimum, so the other side decides.
   */
  function MinRatio(width: real, height: real): (ratio: real)
    requires width >= 0.0 && height >= 0.0
    requires width > MaxDimension || height > MaxDimension
    ensures 0.0 < ratio < 1.0
    ensures ratio * width <= MaxDimension && ratio * height <= MaxDimension
    ensures width >= height ==> ratio * width == MaxDimension
    ensures height >= width ==> ratio * height == MaxDimension
  {
    if width == 0.0 then
      LongerSideRatio(height, width);
      MaxDimension / height
    else if height == 0.0 then
      LongerSideRatio(width, height);
      MaxDimension / width
    else
      var rw, rh := MaxDimension / width, MaxDimension / height;
      var ratio := if rw <= rh then rw else rh;
      if width >= height then
        RatioOrder(width, height);
        LongerSideRatio(width, height);
        ratio
      else
        RatioOrder(height, width);
        LongerSideRatio(height, width);
        ratio
  }

  /** Scaling the longer side down to 2000 brings the shorter one within 2000 as well. */
  lemma LongerSideRatio(long: real, short: real)
    requires long > MaxDimension && 0.0 <= short <= long
    ensures var r := MaxDimension / long;
      0.0 < r < 1.0 && r * long == MaxDimension && 0.0 <= r * short <= MaxDimension
  {
    var r := MaxDimension / long;
    assert r * long == MaxDimension;
    assert r * long - r * short == r * (long - short);
    NonNegativeProduct(r, long - short);
    NonNegativeProduct(r, short);
  }

  /** The longer side gives the smaller ratio. */
  lemma RatioOrder(a: real, b: real)
    requires a > 0.0 && b > 0.0 && a >= b
    ensures MaxDimension / a <= MaxDimension / b
  {
    var ra, rb := MaxDimension / a, MaxDimension / b;
    assert ra * a == MaxDimension && rb * b == MaxDimension;
    assert rb * a >= rb * b by {
      assert rb * a - rb * b == rb * (a - b);
      NonNegativeProduct(rb, a - b);
    }
    if ra > rb {
      GreaterProduct(ra, rb, a);
    }
  }

  /**
   * The size `loadImageData` reads the image at: within 2000x2000 nothing
   * changes; otherwise both sides are multiplied by the same ratio, so the
   * aspect is kept, both end within 2000 and the limiting side ends at
   * exactly 2000.
   */
  function CapSize(imageWidth: real, imageHeight: real): (size: (real, real))
    requires imageWidth >= 0.0 && imageHeight >= 0.0
    ensures imageWidth <= MaxDimension && imageHeight <= MaxDimension ==> size == (imageWidth, imageHeight)
    ensures 0.0 <= size.0 <= MaxDimension && 0.0 <= size.1 <= MaxDimension
    ensures size.0 * imageHeight == size.1 * imageWidth
    ensures imageWidth > MaxDimension || imageHeight > MaxDimension ==>
      (imageWidth >= imageHeight ==> size.0 == MaxDimension) &&
      (imageHeight >= imageWidth ==> size.1 == MaxDimension)
  {
    if imageWidth > MaxDimension || imageHeight > MaxDimension then
      ScaledAspect(imageWidth, imageHeight, MinRatio(imageWidth, imageHeight));
      (imageWidth * MinRatio(imageWidth, imageHeight), imageHeight * MinRatio(imageWidth, imageHeight))
    else
      (imageWidth, imageHeight)
  }

  /** Scaling both sides by one ratio keeps the aspect. */
  lemma ScaledAspect(w: real, h: real, ratio: real)
    ensures (w * ratio) * h == (h * ratio) * w
  {
    assert (w * ratio) * h == ratio * (w * h);
    assert (h * ratio) * w == ratio * (w * h);
  }

  /**
   * The sizing step of `loadImageData`, updating the two sides in place: within 2000x2000 nothing changes;
   * otherwise both sides are multiplied by the same ratio, so the aspect is
   * kept, both end within 2000 and the limiting side ends at exactly 2000.
   */
  method CapDimensions(imageWidth: real, imageHeight: real) returns (width: real, height: real)
    requires imageWidth >= 0.0 && imageHeight >= 0.0
    ensures imageWidth <= MaxDimension && imageHeight <= MaxDimension ==>
      width == imageWidth && height == imageHeight
    ensures 0.0 <= width <= MaxDimension && 0.0 <= height <= MaxDimension
    ensures width * imageHeight == height * imageWidth
    ensures imageWidth > MaxDimension || imageHeight > MaxDimension ==>
      (imageWidth >= imageHeight ==> width == MaxDimension) &&
      (imageHeight >= imageWidth ==> height == MaxDimension)
    ensures width == CapSize(imageWidth, imageHeight).0 && height == CapSize(imageWidth, imageHeight).1
  {
    width := imageWidth;
    height := imageHeight;
    if width > MaxDimension || height > MaxDimension {
      var ratio := MinRatio(width, height);
      width := width * ratio;
      height := height * ratio;
      ScaledAspect(imageWidth, imageHeight, ratio);
    }
  }

  class Generator {
    var isProcessing: bool
    /** The pixel sizes of the images read so far, in order: what was handed on to processing. */
    var loaded: seq<Dimensions>

    constructor()
      ensures !isProcessing && loaded == []
    {
      isProcessing := false;
      loaded := [];
    }

    /**
     * `handleFileChange` once the image has loaded: no file means nothing
     * happens; otherwise the capped, truncated size is read and processing
     * ends with the flag cleared.
     */
    method HandleFileChange(file: Option<(real, real)>)
      requires file.Some? ==> file.value.0 >= 0.0 && file.value.1 >= 0.0
      modifies this
      ensures file.None? ==> isProcessing == old(isProcessing) && loaded == old(loaded)
      ensures file.Some? ==> !isProcessing && |loaded| == |old(loaded)| + 1 && loaded[..|old(loaded)|] == old(loaded)
      ensures file.Some? ==> 0 <= loaded[|loaded| - 1].width <= 2000 && 0 <= loaded[|loaded| - 1].height <= 2000
      ensures file.Some? && file.value.0 <= MaxDimension && file.value.1 <= MaxDimension ==>
        loaded[|loaded| - 1] == Dimensions(file.value.0.Floor, file.value.1.Floor)
      ensures file.Some? ==>
        loaded[|loaded| - 1] ==
        Dimensions(CapSize(file.value.0, file.value.1).0.Floor, CapSize(file.value.0, file.value.1).1.Floor)
    {
      if file.None? {
        return;
      }
      isProcessing := true;
      var width, height := CapDimensions(file.value.0, file.value.1);
      loaded := loaded + [Dimensions(width.Floor, height.Floor)];
      isProcessing := false;
    }
  }
}
