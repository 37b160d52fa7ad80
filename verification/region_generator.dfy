/**
 * The data half of the image-processing edge function: the fixed 12-colour
 * palette, the placeholder regions built from the segmentation result's
 * length, the rectangle path of each region, and the response dimensions.
 * The random rectangle of region `i` is an input (`rect(i)`), not drawn here.
 */
module RegionGenerator {
  import opened PaintTypes
  import opened Numerals
  import opened PathBounds
  import PaintCanvas
  import Completion

  /** `generateColorPalette()`. */
  function Palette(): (p: seq<Color>)
    ensures |p| == 12
    ensures forall i :: 0 <= i < |p| ==> p[i].number == i + 1
  {
    [ Color(1, "#FF6B6B", "Coral Red"),
      Color(2, "#4ECDC4", "Turquoise"),
      Color(3, "#45B7D1", "Sky Blue"),
      Color(4, "#96CEB4", "Mint Green"),
      Color(5, "#FFEAA7", "Warm Yellow"),
      Color(6, "#DDA0DD", "Plum"),
      Color(7, "#FFB347", "Peach"),
      Color(8, "#98D8C8", "Seafoam"),
      Color(9, "#F7DC6F", "Butter"),
      Color(10, "#BB8FCE", "Lavender"),
      Color(11, "#85C1E9", "Light Blue"),
      Color(12, "#F8C471", "Golden") ]
  }

  const MaxRegions := 20
  const DefaultRegionCount := 15

  /** The dimensions every response reports, whatever the uploaded image was. */
  const ResponseDimensions := Dimensions(800, 600)

  function Min(a: int, b: int): int {
    if a <= b then a else b
  }

  /**
   * `segmentationData?.length || 15`: `length` is `None` when the segmentation
   * call failed (null) or its result has no length; 0 also falls back to 15.
   */
  function RegionCount(length: Option<nat>): (n: nat)
    ensures length.Some? && length.value != 0 ==> n == length.value
    ensures length.None? || length == Some(0) ==> n == DefaultRegionCount
  {
    if length.Some? && length.value != 0 then length.value else DefaultRegionCount
  }

  /** The rectangle `generateRandomPath` picks: corner and size. */
  datatype Rect = Rect(x: nat, y: nat, width: nat, height: nat)

  /** A separator, a numeral printed in decimal, then the rest of the path. */
  function Segment(sep: string, n: nat, rest: string): string {
    sep + Decimal(n) + rest
  }

  /** One corner of a path: a command (`M` or ` L`), then `x`, a comma and `y`, then the rest. */
  function Corner(command: string, x: nat, y: nat, rest: string): string {
    Segment(command, x, Segment(",", y, rest))
  }

  /**
   * The template `M${x},${y} L${x + width},${y} L${x + width},${y + height} L${x},${y + height} Z`,
   * written corner by corner.
   */
  function RectPath(r: Rect): string {
    var x1, y1 := r.x + r.width, r.y + r.height;
    Corner("M", r.x, r.y, Corner(" L", x1, r.y, Corner(" L", x1, y1, Corner(" L", r.x, y1, " Z"))))
  }

  /**
   * `generateRegions(segmentationData)`: regions 1..min(count, 20), numbered
   * round the 12-colour palette, each with its rectangle path, none painted.
   */
  method GenerateRegions(length: Option<nat>, rect: nat -> Rect) returns (regions: seq<Region>)
    ensures |regions| == Min(RegionCount(length), MaxRegions)
    ensures length.None? || length == Some(0) ==> |regions| == DefaultRegionCount
    ensures forall k :: 0 <= k < |regions| ==> regions[k].id == k + 1
    ensures forall k :: 0 <= k < |regions| ==> regions[k].colorNumber == k % 12 + 1
    ensures forall k :: 0 <= k < |regions| ==> regions[k].path == RectPath(rect(k + 1))
    ensures forall k :: 0 <= k < |regions| ==> regions[k].isPainted == Some(false)
  {
    regions := [];
    var regionCount := RegionCount(length);
    var i := 1;
    while i <= Min(regionCount, MaxRegions)
      invariant 1 <= i <= Min(regionCount, MaxRegions) + 1
      invariant |regions| == i - 1
      invariant forall k :: 0 <= k < |regions| ==>
        regions[k].id == k + 1 && regions[k].colorNumber == k % 12 + 1 &&
        regions[k].path == RectPath(rect(k + 1)) && regions[k].isPainted == Some(false)
    {
      regions := regions + [Region(i, (i - 1) % 12 + 1, RectPath(rect(i)), Some(false))];
      i := i + 1;
    }
  }

  /** The successful response body of the edge function, apart from the image itself. */
  method BuildResponse(processedImageUrl: string, length: Option<nat>, rect: nat -> Rect)
    returns (data: PaintData)
    ensures data.processedImageUrl == Some(processedImageUrl)
    ensures data.dimensions == ResponseDimensions
    ensures data.colors == Palette()
    ensures |data.regions| == Min(RegionCount(length), MaxRegions)
    ensures forall k :: 0 <= k < |data.regions| ==>
      data.regions[k].id == k + 1 && data.regions[k].colorNumber == k % 12 + 1 &&
      data.regions[k].path == RectPath(rect(k + 1)) && !IsPainted(data.regions[k])
  {
    var colors := Palette();
    var regions := GenerateRegions(length, rect);
    data := PaintData(Some(processedImageUrl), regions, colors, ResponseDimensions);
  }

  /**
   * Every generated colour number names exactly one palette entry, so the
   * canvas finds it and draws the region.
   */
  lemma GeneratedRegionsResolve(regions: seq<Region>)
    requires forall k :: 0 <= k < |regions| ==> regions[k].colorNumber == k % 12 + 1
    ensures forall k :: 0 <= k < |regions| ==>
      1 <= regions[k].colorNumber <= 12 &&
      Palette()[regions[k].colorNumber - 1].number == regions[k].colorNumber &&
      (forall j :: 0 <= j < 12 && Palette()[j].number == regions[k].colorNumber ==> j == regions[k].colorNumber - 1)
    ensures forall k :: 0 <= k < |regions| ==>
      PaintCanvas.FindColor(Palette(), regions[k].colorNumber) == Some(Palette()[regions[k].colorNumber - 1])
  {
    var p := Palette();
    forall k | 0 <= k < |regions|
      ensures PaintCanvas.FindColor(p, regions[k].colorNumber) == Some(p[regions[k].colorNumber - 1])
    {
      var c := regions[k].colorNumber;
      var found := PaintCanvas.FindColor(p, c);
      assert p[c - 1].number == c;
      var i :| 0 <= i < |p| && p[i] == found.value && forall j :: 0 <= j < i ==> p[j].number != c;
    }
  }

  /** A fresh set of generated regions has nothing painted: 0% done, not completed. */
  lemma FreshRegionsUnpainted(regions: seq<Region>)
    requires |regions| > 0
    requires forall k :: 0 <= k < |regions| ==> regions[k].isPainted == Some(false)
    ensures Completion.PaintedCount(regions) == 0
    ensures Completion.CompletionPercentage(regions) == Completion.Value(0)
    ensures !Completion.IsCompleted(Completion.CompletionPercentage(regions))
  {
    Completion.PercentageRange(0, |regions|);
  }

  /** One step of reading a rectangle path: separator, numeral, then the rest. */
  lemma TokensStep(sep: string, n: nat, rest: string)
    requires forall i :: 0 <= i < |sep| ==> !IsNumChar(sep[i])
    requires rest == [] || !IsNumChar(rest[0])
    ensures sep != [] ==> Segment(sep, n, rest)[0] == sep[0]
    ensures Tokens(Segment(sep, n, rest)) == [Decimal(n)] + Tokens(rest)
  {
    ParseDecimal(n);
    assert sep + Decimal(n) + rest == sep + (Decimal(n) + rest);
    TokensOfSeparator(sep, Decimal(n) + rest);
    TokensOfToken(Decimal(n), rest);
  }

  /** One corner of a rectangle path contributes its `x` and its `y`, ahead of the rest's numbers. */
  lemma TokensPoint(command: string, x: nat, y: nat, rest: string, ts: seq<string>)
    requires command != [] && forall i :: 0 <= i < |command| ==> !IsNumChar(command[i])
    requires rest == [] || !IsNumChar(rest[0])
    requires Tokens(rest) == ts
    ensures Corner(command, x, y, rest)[0] == command[0]
    ensures Tokens(Corner(command, x, y, rest)) == [Decimal(x), Decimal(y)] + ts
  {
    TokensStep(",", y, rest);
    TokensStep(command, x, Segment(",", y, rest));
    ConsTwo(Decimal(x), Decimal(y), ts);
  }

  lemma ConsTwo<T>(a: T, b: T, ts: seq<T>)
    ensures [a] + ([b] + ts) == [a, b] + ts
  {
  }

  /** The numbers the label placement extracts from a rectangle path are its four corners in order. */
  lemma RectPathTokens(r: Rect)
    ensures var x0, y0 := Decimal(r.x), Decimal(r.y);
      var x1, y1 := Decimal(r.x + r.width), Decimal(r.y + r.height);
      Tokens(RectPath(r)) == [x0, y0, x1, y0, x1, y1, x0, y1]
  {
    var x1, y1 := r.x + r.width, r.y + r.height;
    var path := Corner("M", r.x, r.y, Corner(" L", x1, r.y, Corner(" L", x1, y1, Corner(" L", r.x, y1, " Z"))));
    assert RectPath(r) == path;
    CornerTokens(r.x, r.y, x1, r.y, x1, y1, r.x, y1);
  }

  /** A path of four corners yields their coordinates as tokens, in drawing order. */
  lemma CornerTokens(a: nat, b: nat, c: nat, d: nat, e: nat, f: nat, g: nat, h: nat)
    ensures Tokens(Corner("M", a, b, Corner(" L", c, d, Corner(" L", e, f, Corner(" L", g, h, " Z"))))) ==
      [Decimal(a), Decimal(b), Decimal(c), Decimal(d), Decimal(e), Decimal(f), Decimal(g), Decimal(h)]
  {
    var tail := Corner(" L", c, d, Corner(" L", e, f, Corner(" L", g, h, " Z")));
    LastCorners(c, d, e, f, g, h);
    TokensPoint("M", a, b, tail, [Decimal(c), Decimal(d)] + ([Decimal(e), Decimal(f)] + [Decimal(g), Decimal(h)]));
    Flatten4(Decimal(a), Decimal(b), Decimal(c), Decimal(d), Decimal(e), Decimal(f), Decimal(g), Decimal(h));
  }

  /** The three ` L` corners and the closing ` Z` that follow the `M` corner. */
  lemma LastCorners(a: nat, b: nat, c: nat, d: nat, e: nat, f: nat)
    ensures var tail := Corner(" L", a, b, Corner(" L", c, d, Corner(" L", e, f, " Z")));
      tail[0] == ' ' &&
      Tokens(tail) == [Decimal(a), Decimal(b)] + ([Decimal(c), Decimal(d)] + [Decimal(e), Decimal(f)])
  {
    var close := " Z";
    assert Tokens(close) == [] by {
      TokensOfSeparator(close, []);
      assert close + [] == close;
    }
    var last := Corner(" L", e, f, close);
    TokensPoint(" L", e, f, close, []);
    assert Tokens(last) == [Decimal(e), Decimal(f)];
    TokensPoint(" L", c, d, last, [Decimal(e), Decimal(f)]);
    TokensPoint(" L", a, b, Corner(" L", c, d, last), [Decimal(c), Decimal(d)] + [Decimal(e), Decimal(f)]);
  }

  lemma Flatten4<T>(a: T, b: T, c: T, d: T, e: T, f: T, g: T, h: T)
    ensures [a, b] + ([c, d] + ([e, f] + [g, h])) == [a, b, c, d, e, f, g, h]
  {
  }

  /** The numbers of a rectangle path, as `Number` reads them: the corners' coordinates. */
  lemma RectPathNumbers(r: Rect)
    ensures var x0, y0 := r.x as real, r.y as real;
      var x1, y1 := (r.x + r.width) as real, (r.y + r.height) as real;
      Numbers(RectPath(r)) == [Some(x0), Some(y0), Some(x1), Some(y0), Some(x1), Some(y1), Some(x0), Some(y1)]
  {
    RectPathTokens(r);
    CornerNumbers(RectPath(r), r.x, r.y, r.x + r.width, r.y + r.height);
  }

  /** `Number` reads the printed corner coordinates of any such path back as their values. */
  lemma CornerNumbers(path: string, x0: nat, y0: nat, x1: nat, y1: nat)
    requires Tokens(path) == [Decimal(x0), Decimal(y0), Decimal(x1), Decimal(y0), Decimal(x1), Decimal(y1), Decimal(x0), Decimal(y1)]
    ensures var a, b, c, d := x0 as real, y0 as real, x1 as real, y1 as real;
      Numbers(path) == [Some(a), Some(b), Some(c), Some(b), Some(c), Some(d), Some(a), Some(d)]
  {
    ParseDecimal(x0);
    ParseDecimal(y0);
    ParseDecimal(x1);
    ParseDecimal(y1);
  }

  /**
   * Reading a generated path back for label placement recovers the rectangle:
   * x extent from the corner's x over the width, y extent over the height.
   */
  lemma RectPathBounds(r: Rect)
    ensures GetPathBounds(RectPath(r)) ==
      Bounds(Some(Extent(r.x as real, r.width as real)), Some(Extent(r.y as real, r.height as real)))
  {
    var path := RectPath(r);
    var x, y, x1, y1 := r.x as real, r.y as real, (r.x + r.width) as real, (r.y + r.height) as real;
    assert x1 - x == r.width as real && y1 - y == r.height as real;
    RectPathNumbers(r);
    CornerBounds(x, y, x1, y1);
  }

  /** The box built from the numbers of a rectangle's four corners, in drawing order, is that rectangle. */
  lemma CornerBounds(x: real, y: real, x1: real, y1: real)
    requires x <= x1 && y <= y1
    ensures BoundsOf([Some(x), Some(y), Some(x1), Some(y), Some(x1), Some(y1), Some(x), Some(y1)]) ==
      Bounds(Some(Extent(x, x1 - x)), Some(Extent(y, y1 - y)))
  {
    EvensOddsOfEight(Some(x), Some(y), Some(x1), Some(y), Some(x1), Some(y1), Some(x), Some(y1));
    var xs, ys := [Some(x), Some(x1), Some(x1), Some(x)], [Some(y), Some(y), Some(y1), Some(y1)];
    assert xs[0] == Some(x) && xs[1] == Some(x1);
    assert ys[0] == Some(y) && ys[2] == Some(y1);
    ExtentOfPair(xs, x, x1);
    ExtentOfPair(ys, y, y1);
  }

  /** Even positions of eight values, and odd positions. */
  lemma EvensOddsOfEight<T>(a: T, b: T, c: T, d: T, e: T, f: T, g: T, h: T)
    ensures Evens([a, b, c, d, e, f, g, h]) == [a, c, e, g]
    ensures Odds([a, b, c, d, e, f, g, h]) == [b, d, f, h]
  {
  }

  /** An extent over values that are all `lo` or `hi`, both present, is `lo` to `hi`. */
  lemma ExtentOfPair(vs: seq<Option<real>>, lo: real, hi: real)
    requires lo <= hi && |vs| > 0
    requires forall i :: 0 <= i < |vs| ==> vs[i] == Some(lo) || vs[i] == Some(hi)
    requires Some(lo) in vs && Some(hi) in vs
    ensures AxisExtent(vs) == Some(Extent(lo, hi - lo))
  {
    var e := AxisExtent(vs);
    assert e.Some?;
    var i :| 0 <= i < |vs| && vs[i] == Some(lo);
    var j :| 0 <= j < |vs| && vs[j] == Some(hi);
    var k :| 0 <= k < |vs| && vs[k].value == e.value.lo;
    var m :| 0 <= m < |vs| && vs[m].value == e.value.lo + e.value.size;
    assert Within(e.value, lo) && Within(e.value, hi);
    assert e.value.lo == lo;
    assert e.value.lo + e.value.size == hi;
  }

}
